/**
 * The scenario dispatch of the victim base class, as pure values: for each
 * entry point, the ordered hook calls it makes and the error it raises,
 * depending on `args.scenario`. The class in module VictimBase executes
 * these plans hook by hook; the lemmas here state what the plans promise.
 */
module Scenarios {
  import opened Wrappers
  import opened Hooks

  /** Every (re-)initialisation among `calls` is drawn from the recorded seed. */
  predicate SeededWith(calls: seq<Event>, seed: int)
  {
    forall e :: e in calls && (e.Initialize? || e.ReinitializeLastLayer?) ==> e.seed == Some(seed)
  }

  /** Every (re-)initialisation among `calls` is left to a fresh random seed. */
  predicate Unseeded(calls: seq<Event>)
  {
    forall e :: e in calls && (e.Initialize? || e.ReinitializeLastLayer?) ==> e.seed == None
  }

  /** `_iterate` calls among `calls` all train on `kettle` with `delta` for `maxEpoch`, without a pretraining flag. */
  predicate IteratesWith(calls: seq<Event>, kettle: Kettle, delta: PoisonDelta, maxEpoch: Option<int>)
  {
    forall e :: e in calls && e.Iterate? ==> e == Iterate(kettle, delta, maxEpoch, None)
  }

  // ---------------------------------------------------------------- construction

  /** `__init__`: the ensemble size check, then one `initialize(pretrain=...)`. */
  function InitCalls(args: Args): (p: Plan)
    ensures p.failure.Some? <==> !EnsembleFits(args)
    ensures p.failure.Some? ==> p.calls == [] && p.failure.value == ValueError(EnsembleTooSmall)
    ensures p.failure.None? ==> |p.calls| == 1 && CountIterates(p.calls) == 0
    ensures p.failure.None? ==> p.calls[0] == Initialize(None, Some(args.pretrainDataset.Some?))
  {
    if !EnsembleFits(args) then Plan([], Some(ValueError(EnsembleTooSmall)))
    else Plan([Initialize(None, Some(args.pretrainDataset.Some?))], None)
  }

  // ---------------------------------------------------------------- train

  /** `train`: clean training, dispatched on the scenario. */
  function TrainCalls(scenario: string, pretrainPresent: bool, seed: int, kettle: Kettle, maxEpoch: Option<int>): (p: Plan)
    ensures p.failure.Some? <==> !ValidScenario(scenario)
    ensures p.failure.Some? ==> p.calls == [] && p.failure.value == ValueError(InvalidTrainScenario)
  {
    if scenario == FromScratch then
      Plan([Iterate(kettle, NoDelta, maxEpoch, Some(pretrainPresent)), SaveFeatureRepresentation], None)
    else if scenario == Transfer then
      Plan([SaveFeatureRepresentation, FreezeFeatureExtractor, ReinitializeLastLayer(NoLrReduction, Some(seed), true),
            Iterate(kettle, NoDelta, maxEpoch, None)], None)
    else
      Plan([], Some(ValueError(InvalidTrainScenario)))
  }

  /**
   * Clean training trains exactly once, without poison, saves the feature
   * representation and never loads one; the pretraining flag is passed (true
   * iff a pretrain dataset is configured) only from scratch, and a re-heading
   * uses the recorded seed.
   */
  lemma TrainCallsShape(scenario: string, pretrainPresent: bool, seed: int, kettle: Kettle, maxEpoch: Option<int>)
    ensures var p := TrainCalls(scenario, pretrainPresent, seed, kettle, maxEpoch);
            && (p.failure.None? ==> CountIterates(p.calls) == 1 && SaveFeatureRepresentation in p.calls)
            && LoadFeatureRepresentation !in p.calls
            && SeededWith(p.calls, seed)
            && forall e :: e in p.calls && e.Iterate? ==>
                 && e.kettle == kettle && e.poisonDelta == NoDelta && e.maxEpoch == maxEpoch
                 && e.pretrainingPhase == (if scenario == FromScratch then Some(pretrainPresent) else None)
  {
    var calls := TrainCalls(scenario, pretrainPresent, seed, kettle, maxEpoch).calls;
    if scenario == FromScratch {
      CountIteratesSingle([], calls[0], calls[1..]);
      assert [] + [calls[0]] + calls[1..] == calls;
    } else if scenario == Transfer {
      CountIteratesSingle(calls[..3], calls[3], []);
      assert calls[..3] + [calls[3]] + [] == calls;
    }
  }

  /**
   * Clean training returns the statistics of its one `_iterate` call: made first
   * under "from-scratch", last (after the re-heading) under "transfer".
   */
  lemma TrainReturnsItsIterate(before: seq<Event>, scenario: string, pretrainPresent: bool, seed: int,
                               kettle: Kettle, maxEpoch: Option<int>, iterate: seq<Event> -> Stats)
    requires ValidScenario(scenario)
    ensures var calls := TrainCalls(scenario, pretrainPresent, seed, kettle, maxEpoch).calls;
            IterateResults(before, calls, iterate)
              == [iterate(before + (if scenario == FromScratch then calls[..1] else calls))]
  {
    var calls := TrainCalls(scenario, pretrainPresent, seed, kettle, maxEpoch).calls;
    if scenario == FromScratch {
      SingleIterateResult(before, [], calls[0], calls[1..], iterate);
      assert [] + [calls[0]] + calls[1..] == calls;
      assert before + [] + [calls[0]] == before + calls[..1];
    } else {
      SingleIterateResult(before, calls[..3], calls[3], [], iterate);
      assert calls[..3] + [calls[3]] + [] == calls;
      assert before + calls[..3] + [calls[3]] == before + calls;
    }
  }

  // ---------------------------------------------------------------- retrain

  /**
   * `retrain` as the code is written: a re-initialisation for "from-scratch",
   * then an independent transfer test whose `else` raises. Only "transfer"
   * reaches `_iterate`.
   */
  function RetrainCalls(scenario: string, seed: int, kettle: Kettle, delta: PoisonDelta, maxEpoch: Option<int>): (p: Plan)
    ensures p.failure.None? <==> scenario == Transfer
    ensures p.failure.Some? ==> p.failure.value == ValueError(InvalidRetrainScenario)
    ensures p.failure.Some? ==> (p.calls != [] <==> scenario == FromScratch)
  {
    var reinit := if scenario == FromScratch then [Initialize(Some(seed), None)] else [];
    if scenario == Transfer then
      Plan(reinit + [LoadFeatureRepresentation, FreezeFeatureExtractor,
                     ReinitializeLastLayer(NoLrReduction, Some(seed), true),
                     Iterate(kettle, delta, maxEpoch, None)], None)
    else
      Plan(reinit, Some(ValueError(InvalidRetrainScenario)))
  }

  /**
   * Retrain, as written, trains once, with the caller's poison, as its last
   * hook call when it succeeds and not at all when it raises; every
   * (re-)initialisation uses the recorded seed.
   */
  lemma RetrainCallsShape(scenario: string, seed: int, kettle: Kettle, delta: PoisonDelta, maxEpoch: Option<int>)
    ensures var p := RetrainCalls(scenario, seed, kettle, delta, maxEpoch);
            && CountIterates(p.calls) == (if p.failure.None? then 1 else 0)
            && (p.failure.None? ==> p.calls[|p.calls| - 1] == Iterate(kettle, delta, maxEpoch, None))
            && SeededWith(p.calls, seed) && IteratesWith(p.calls, kettle, delta, maxEpoch)
  {
    var calls := RetrainCalls(scenario, seed, kettle, delta, maxEpoch).calls;
    if scenario == Transfer {
      CountIteratesSingle(calls[..3], calls[3], []);
      assert calls[..3] + [calls[3]] + [] == calls;
    } else {
      CountIteratesNone(calls);
    }
  }

  /**
   * `retrain` as evidently intended (the second test an `elif`):
   * "from-scratch" re-initialises from the recorded seed and trains.
   */
  function IntendedRetrainCalls(scenario: string, seed: int, kettle: Kettle, delta: PoisonDelta, maxEpoch: Option<int>): (p: Plan)
    ensures p.failure.None? <==> ValidScenario(scenario)
    ensures p.failure.Some? ==> p.calls == [] && p.failure.value == ValueError(InvalidRetrainScenario)
  {
    if scenario == FromScratch then
      Plan([Initialize(Some(seed), None), Iterate(kettle, delta, maxEpoch, None)], None)
    else if scenario == Transfer then
      Plan([LoadFeatureRepresentation, FreezeFeatureExtractor,
            ReinitializeLastLayer(NoLrReduction, Some(seed), true),
            Iterate(kettle, delta, maxEpoch, None)], None)
    else
      Plan([], Some(ValueError(InvalidRetrainScenario)))
  }

  /** As written, retrain under "from-scratch" re-initialises and then raises, never training. */
  lemma RetrainFromScratchRaises(seed: int, kettle: Kettle, delta: PoisonDelta, maxEpoch: Option<int>)
    ensures RetrainCalls(FromScratch, seed, kettle, delta, maxEpoch)
         == Plan([Initialize(Some(seed), None)], Some(ValueError(InvalidRetrainScenario)))
  {
  }

  /**
   * As intended, retrain under either scenario checks the poison on the
   * initialisation it was brewed on: the model is rebuilt from the recorded seed
   * ("from-scratch") or the head is redrawn from it exactly as clean training
   * did ("transfer"), and then trained exactly once, last, with the poison.
   */
  lemma IntendedRetrainReproducesTraining(scenario: string, pretrainPresent: bool, seed: int,
                                          kettle: Kettle, delta: PoisonDelta, maxEpoch: Option<int>)
    requires ValidScenario(scenario)
    ensures var p := IntendedRetrainCalls(scenario, seed, kettle, delta, maxEpoch);
            && p.failure.None?
            && CountIterates(p.calls) == 1
            && p.calls[|p.calls| - 1] == Iterate(kettle, delta, maxEpoch, None)
            && SeededWith(p.calls, seed) && IteratesWith(p.calls, kettle, delta, maxEpoch)
            && (scenario == FromScratch ==> p.calls[0] == Initialize(Some(seed), None))
            && (scenario == Transfer ==> p.calls[2] == TrainCalls(scenario, pretrainPresent, seed, kettle, maxEpoch).calls[2])
  {
    var calls := IntendedRetrainCalls(scenario, seed, kettle, delta, maxEpoch).calls;
    CountIteratesSingle(calls[..|calls| - 1], calls[|calls| - 1], []);
    assert calls[..|calls| - 1] + [calls[|calls| - 1]] + [] == calls;
  }

  /**
   * In the transfer scenario, retrain redraws the head exactly as clean
   * training did: the same factor, the same recorded seed, the same shape.
   */
  lemma TransferRetrainReusesTrainingHead(pretrainPresent: bool, seed: int, k1: Kettle, m1: Option<int>,
                                          k2: Kettle, delta: PoisonDelta, m2: Option<int>)
    ensures var train := TrainCalls(Transfer, pretrainPresent, seed, k1, m1).calls;
            var retrain := RetrainCalls(Transfer, seed, k2, delta, m2).calls;
            && train[1..3] == retrain[1..3]
            && train[2] == ReinitializeLastLayer(NoLrReduction, Some(seed), true)
  {
  }

  // ---------------------------------------------------------------- validate

  /** The number of iterations of `for runs in range(vruns)`. */
  function Runs(vruns: int): nat
  {
    if vruns < 0 then 0 else vruns
  }

  /** The hook calls that prepare one validation run, before its `_iterate`. */
  function ValidatePreparation(scenario: string): (prep: seq<Event>)
    requires ValidScenario(scenario)
    ensures CountIterates(prep) == 0 && Unseeded(prep)
  {
    var prep := if scenario == FromScratch then [Initialize(None, None)]
                else [LoadFeatureRepresentation, FreezeFeatureExtractor, ReinitializeLastLayer(NoLrReduction, None, true)];
    CountIteratesNone(prep);
    prep
  }

  /** One validation run: its preparation, then `_iterate` with the caller's poison. */
  function ValidateRound(scenario: string, kettle: Kettle, delta: PoisonDelta, maxEpoch: Option<int>): (round: seq<Event>)
    requires ValidScenario(scenario)
    ensures |round| > 0 && round[|round| - 1] == Iterate(kettle, delta, maxEpoch, None)
    ensures forall i :: 0 <= i < |round| - 1 ==> !round[i].Iterate?
    ensures round[..|round| - 1] == ValidatePreparation(scenario)
  {
    var prep := ValidatePreparation(scenario);
    var round := prep + [Iterate(kettle, delta, maxEpoch, None)];
    assert round[..|round| - 1] == prep;
    round
  }

  /** `n` consecutive copies of `round`. */
  function Repeat(round: seq<Event>, n: nat): seq<Event>
  {
    if n == 0 then [] else Repeat(round, n - 1) + round
  }

  /** `validate`: `vruns` runs; an invalid scenario raises on the first run. */
  function ValidateCalls(scenario: string, vruns: int, kettle: Kettle, delta: PoisonDelta, maxEpoch: Option<int>): (p: Plan)
    ensures p.failure.Some? <==> !ValidScenario(scenario) && vruns >= 1
    ensures p.failure.Some? ==> p.failure.value == ValueError(InvalidValidationScenario)
    ensures !ValidScenario(scenario) ==> p.calls == []
  {
    if ValidScenario(scenario) then Plan(Repeat(ValidateRound(scenario, kettle, delta, maxEpoch), Runs(vruns)), None)
    else if vruns >= 1 then Plan([], Some(ValueError(InvalidValidationScenario)))
    else Plan([], None)
  }

  lemma {:induction false} RepeatCount(round: seq<Event>, n: nat)
    ensures CountIterates(Repeat(round, n)) == n * CountIterates(round)
  {
    if n > 0 {
      RepeatCount(round, n - 1);
      CountIteratesAppend(Repeat(round, n - 1), round);
    }
  }

  lemma {:induction false} InRepeat(round: seq<Event>, n: nat, e: Event)
    requires e in Repeat(round, n)
    ensures e in round
  {
    if n > 0 && e !in round {
      InRepeat(round, n - 1, e);
    }
  }

  /** With a valid scenario, validate calls `_iterate` exactly once per run. */
  lemma ValidateRunsIterate(scenario: string, vruns: int, kettle: Kettle, delta: PoisonDelta, maxEpoch: Option<int>)
    requires ValidScenario(scenario)
    ensures CountIterates(ValidateCalls(scenario, vruns, kettle, delta, maxEpoch).calls) == Runs(vruns)
  {
    var round := ValidateRound(scenario, kettle, delta, maxEpoch);
    RepeatCount(round, Runs(vruns));
    CountIteratesSingle(round[..|round| - 1], round[|round| - 1], []);
    assert round[..|round| - 1] + [round[|round| - 1]] + [] == round;
  }

  /**
   * With a valid scenario, every run of validate trains with the caller's poison
   * and data, and every initialisation in it is fresh (unseeded).
   */
  lemma ValidateRunsUseCallerPoison(scenario: string, vruns: int, kettle: Kettle, delta: PoisonDelta, maxEpoch: Option<int>)
    requires ValidScenario(scenario)
    ensures var calls := ValidateCalls(scenario, vruns, kettle, delta, maxEpoch).calls;
            IteratesWith(calls, kettle, delta, maxEpoch) && Unseeded(calls)
  {
    var round := ValidateRound(scenario, kettle, delta, maxEpoch);
    var calls := Repeat(round, Runs(vruns));
    forall e | e in calls
      ensures e in round
    {
      InRepeat(round, Runs(vruns), e);
    }
    assert round == ValidatePreparation(scenario) + [round[|round| - 1]];
  }

  /**
   * The statistics of the `_iterate` calls of `n` validation runs: run `j`
   * returns what `_iterate` gives after the earlier hook calls and the first
   * `j + 1` runs, so run results come back in run order.
   */
  lemma {:induction false} RepeatResults(before: seq<Event>, round: seq<Event>, n: nat, iterate: seq<Event> -> Stats)
    requires |round| > 0 && round[|round| - 1].Iterate?
    requires forall i :: 0 <= i < |round| - 1 ==> !round[i].Iterate?
    ensures var results := IterateResults(before, Repeat(round, n), iterate);
            && |results| == n
            && forall j :: 0 <= j < n ==> results[j] == iterate(before + Repeat(round, j + 1))
  {
    if n > 0 {
      RepeatResults(before, round, n - 1, iterate);
      IterateResultsAppend(before, Repeat(round, n - 1), round, iterate);
      LastIterateResult(before + Repeat(round, n - 1), round, iterate);
      assert before + Repeat(round, n - 1) + round == before + Repeat(round, n);
    }
  }

  /** One more validation run appends exactly its `_iterate` result, made after the runs so far. */
  lemma ValidateRunStep(before: seq<Event>, scenario: string, kettle: Kettle, delta: PoisonDelta,
                        maxEpoch: Option<int>, i: nat, iterate: seq<Event> -> Stats)
    requires ValidScenario(scenario)
    ensures var round := ValidateRound(scenario, kettle, delta, maxEpoch);
            IterateResults(before, Repeat(round, i + 1), iterate)
              == IterateResults(before, Repeat(round, i), iterate) + [iterate(before + Repeat(round, i + 1))]
  {
    var round := ValidateRound(scenario, kettle, delta, maxEpoch);
    IterateResultsAppend(before, Repeat(round, i), round, iterate);
    LastIterateResult(before + Repeat(round, i), round, iterate);
    assert before + Repeat(round, i) + round == before + Repeat(round, i + 1);
  }

  /** Validate over a valid scenario returns the average of its runs' statistics, in run order. */
  lemma ValidateRunStats(before: seq<Event>, scenario: string, vruns: int, kettle: Kettle, delta: PoisonDelta,
                         maxEpoch: Option<int>, iterate: seq<Event> -> Stats)
    requires ValidScenario(scenario)
    ensures var round := ValidateRound(scenario, kettle, delta, maxEpoch);
            var results := IterateResults(before, ValidateCalls(scenario, vruns, kettle, delta, maxEpoch).calls, iterate);
            && |results| == Runs(vruns)
            && forall j :: 0 <= j < Runs(vruns) ==> results[j] == iterate(before + Repeat(round, j + 1))
  {
    RepeatResults(before, ValidateRound(scenario, kettle, delta, maxEpoch), Runs(vruns), iterate);
  }

  // ---------------------------------------------------------------- sponge_train

  /** `sponge_train`: the sponge step, then a save; no scenario check at all. */
  function SpongeTrainCalls(kettle: Kettle, maxEpoch: Option<int>): (p: Plan)
    ensures p.failure.None? && CountIterates(p.calls) == 1
    ensures p.calls[0] == Iterate(kettle, Sponge, maxEpoch, None)
    ensures p.calls[|p.calls| - 1] == SaveFeatureRepresentation
  {
    var step := Iterate(kettle, Sponge, maxEpoch, None);
    CountIteratesSingle([], step, [SaveFeatureRepresentation]);
    assert [] + [step] + [SaveFeatureRepresentation] == [step, SaveFeatureRepresentation];
    Plan([step, SaveFeatureRepresentation], None)
  }

  // ---------------------------------------------------------------- error texts

  /** Every failing plan raises the ValueError text of its entry point. */
  lemma ErrorTexts(args: Args, pretrainPresent: bool, seed: int, kettle: Kettle, delta: PoisonDelta, maxEpoch: Option<int>)
    ensures var p := InitCalls(args);
            p.failure.Some? ==>
              Message(p.failure.value.reason) == "More models requested than ensemble size.Increase ensemble size or reduce models."
    ensures var p := TrainCalls(args.scenario, pretrainPresent, seed, kettle, maxEpoch);
            p.failure.Some? ==> Message(p.failure.value.reason) == "Invalid train scenario."
    ensures var p := RetrainCalls(args.scenario, seed, kettle, delta, maxEpoch);
            p.failure.Some? ==> Message(p.failure.value.reason) == "Invalid retrain scenario"
    ensures var p := ValidateCalls(args.scenario, args.vruns, kettle, delta, maxEpoch);
            p.failure.Some? ==> Message(p.failure.value.reason) == "Invalid validation scenario"
  {
  }

  // ---------------------------------------------------------------- feature representations

  /** Every `load_feature_representation` call comes after some `save_feature_representation` call. */
  predicate LoadsBacked(trace: seq<Event>)
  {
    forall i :: 0 <= i < |trace| && trace[i] == LoadFeatureRepresentation ==> SaveFeatureRepresentation in trace[..i]
  }

  /** Once a representation has been saved, any later hook calls keep every load backed. */
  lemma SavedStaysBacked(before: seq<Event>, calls: seq<Event>)
    requires LoadsBacked(before) && SaveFeatureRepresentation in before
    ensures LoadsBacked(before + calls)
  {
    var t := before + calls;
    forall i | 0 <= i < |t| && t[i] == LoadFeatureRepresentation
      ensures SaveFeatureRepresentation in t[..i]
    {
      if i < |before| {
        assert t[..i] == before[..i];
      } else {
        var k :| 0 <= k < |before| && before[k] == SaveFeatureRepresentation;
        assert t[..i][k] == SaveFeatureRepresentation;
      }
    }
  }

  /** Calls that never load keep every load backed. */
  lemma NoLoadStaysBacked(before: seq<Event>, calls: seq<Event>)
    requires LoadsBacked(before) && LoadFeatureRepresentation !in calls
    ensures LoadsBacked(before + calls)
  {
    var t := before + calls;
    forall i | 0 <= i < |t|
      ensures t[i] == LoadFeatureRepresentation ==> SaveFeatureRepresentation in t[..i]
    {
      if i < |before| {
        assert t[..i] == before[..i];
      } else {
        assert t[i] == calls[i - |before|];
      }
    }
  }

  /**
   * A transfer retrain loads the saved representation first, so its loads are
   * backed exactly when a representation was saved before it.
   */
  lemma TransferRetrainNeedsSave(before: seq<Event>, seed: int, kettle: Kettle, delta: PoisonDelta, maxEpoch: Option<int>)
    requires LoadsBacked(before)
    ensures LoadsBacked(before + RetrainCalls(Transfer, seed, kettle, delta, maxEpoch).calls)
        <==> SaveFeatureRepresentation in before
  {
    var t := before + RetrainCalls(Transfer, seed, kettle, delta, maxEpoch).calls;
    assert t[|before|] == LoadFeatureRepresentation;
    assert t[..|before|] == before;
    if SaveFeatureRepresentation in before {
      SavedStaysBacked(before, RetrainCalls(Transfer, seed, kettle, delta, maxEpoch).calls);
    }
  }

  /**
   * The transfer lifecycle the driver follows: construction, clean training,
   * retraining with a poison and validation never load a representation that
   * was not saved before, whatever kettle, poison and epoch budget each call uses.
   */
  lemma TransferLifecycleBacked(args: Args, seed: int, trainKettle: Kettle, trainEpochs: Option<int>,
                                retrainKettle: Kettle, retrainDelta: PoisonDelta, retrainEpochs: Option<int>,
                                validKettle: Kettle, validDelta: PoisonDelta, validEpochs: Option<int>)
    requires args.scenario == Transfer && EnsembleFits(args)
    ensures var trace := InitCalls(args).calls
                       + TrainCalls(Transfer, args.pretrainDataset.Some?, seed, trainKettle, trainEpochs).calls
                       + RetrainCalls(Transfer, seed, retrainKettle, retrainDelta, retrainEpochs).calls
                       + ValidateCalls(Transfer, args.vruns, validKettle, validDelta, validEpochs).calls;
            LoadsBacked(trace)
  {
    var init := InitCalls(args).calls;
    var train := TrainCalls(Transfer, args.pretrainDataset.Some?, seed, trainKettle, trainEpochs).calls;
    var later := RetrainCalls(Transfer, seed, retrainKettle, retrainDelta, retrainEpochs).calls
               + ValidateCalls(Transfer, args.vruns, validKettle, validDelta, validEpochs).calls;
    assert LoadsBacked(init);
    NoLoadStaysBacked(init, train);
    assert (init + train)[|init|] == SaveFeatureRepresentation;
    SavedStaysBacked(init + train, later);
    assert init + train + RetrainCalls(Transfer, seed, retrainKettle, retrainDelta, retrainEpochs).calls
           + ValidateCalls(Transfer, args.vruns, validKettle, validDelta, validEpochs).calls
        == (init + train) + later;
  }

}
