/**
 * The vocabulary of the victim lifecycle: the run configuration (`args`),
 * the lifecycle hooks a victim backend implements (recorded as events),
 * and the foreign collaborators the orchestration calls into.
 */
module Hooks {
  import opened Wrappers

  /** The two scenario strings the orchestration recognises. */
  const FromScratch: string := "from-scratch"
  const Transfer: string := "transfer"

  /** The learning-rate factor every re-heading in the core passes. */
  const NoLrReduction: real := 1.0

  predicate ValidScenario(scenario: string)
  {
    scenario == FromScratch || scenario == Transfer
  }

  /** The part of the run configuration the orchestration reads. */
  datatype Args = Args(
    ensemble: int,                    // args.ensemble
    net: seq<string>,                 // args.net, the requested model names
    scenario: string,                 // args.scenario
    pretrainDataset: Option<string>,  // args.pretrain_dataset
    vruns: int)                       // args.vruns

  /** Construction succeeds only when the ensemble can hold every requested model. */
  predicate EnsembleFits(args: Args)
  {
    args.ensemble >= |args.net|
  }

  /** The opaque training-data handle handed through to `_iterate`. */
  datatype Kettle = Kettle(id: nat)

  /**
   * A `poison_delta` argument: absent (`None`), the sentinel string "sponge"
   * that selects the sponge step, or a perturbation tensor (by handle).
   */
  datatype PoisonDelta = NoDelta | Sponge | Perturbation(id: nat)

  /**
   * One call of a lifecycle hook, with the arguments it was given.
   * An `Option` argument that is `None` was left to the hook's default.
   */
  datatype Event =
    | Initialize(seed: Option<int>, pretrain: Option<bool>)
    | ReinitializeLastLayer(reduceLrFactor: real, seed: Option<int>, keepLastLayer: bool)
    | Freeze
    | Activate
    | FreezeFeatureExtractor
    | ActivateFeatureExtractor
    | SaveFeatureRepresentation
    | LoadFeatureRepresentation
    | ResetLearningRate
    | Eval(dropout: bool)
    | Serialize(path: string)
    | Iterate(kettle: Kettle, poisonDelta: PoisonDelta, maxEpoch: Option<int>, pretrainingPhase: Option<bool>)

  /** Why a ValueError was raised. */
  datatype Reason =
    | EnsembleTooSmall
    | InvalidTrainScenario
    | InvalidRetrainScenario
    | InvalidValidationScenario

  datatype Error = ValueError(reason: Reason)

  /** The exact message each ValueError carries. */
  function Message(reason: Reason): string
  {
    match reason
    case EnsembleTooSmall => "More models requested than ensemble size.Increase ensemble size or reduce models."
    case InvalidTrainScenario => "Invalid train scenario."
    case InvalidRetrainScenario => "Invalid retrain scenario"
    case InvalidValidationScenario => "Invalid validation scenario"
  }

  /** Run statistics: metric name to its per-epoch values. Their numbers never matter here. */
  type Stats = map<string, seq<real>>

  /**
   * The code the orchestration calls but does not contain. `iterate` is the
   * result of the backend's `_iterate`, as a function of every hook call the
   * victim has received up to and including that `_iterate` call;
   * `averageDicts` is the statistics helper `average_dicts`, left uninterpreted.
   */
  datatype Backend = Backend(iterate: seq<Event> -> Stats, averageDicts: seq<Stats> -> Stats)

  /** What an entry point does: the hook calls it makes, in order, then the error it raises if any. */
  datatype Plan = Plan(calls: seq<Event>, failure: Option<Error>)

  /** The number of `_iterate` calls in a sequence of hook calls. */
  function CountIterates(calls: seq<Event>): nat
  {
    if calls == [] then 0
    else (if calls[0].Iterate? then 1 else 0) + CountIterates(calls[1..])
  }

  /**
   * The values the `_iterate` calls among `calls` return, in call order, when
   * the victim had already received the hook calls `before`.
   */
  function IterateResults(before: seq<Event>, calls: seq<Event>, iterate: seq<Event> -> Stats): seq<Stats>
    decreases |calls|
  {
    if calls == [] then []
    else
      var upTo := before + [calls[0]];
      (if calls[0].Iterate? then [iterate(upTo)] else []) + IterateResults(upTo, calls[1..], iterate)
  }

  /** Every `_iterate` call contributes exactly one result. */
  lemma {:induction false} IterateResultsLength(before: seq<Event>, calls: seq<Event>, iterate: seq<Event> -> Stats)
    ensures |IterateResults(before, calls, iterate)| == CountIterates(calls)
    decreases |calls|
  {
    if calls != [] {
      IterateResultsLength(before + [calls[0]], calls[1..], iterate);
    }
  }

  /** Results of consecutive call sequences are the concatenation of their results. */
  lemma {:induction false} IterateResultsAppend(before: seq<Event>, a: seq<Event>, b: seq<Event>, iterate: seq<Event> -> Stats)
    ensures IterateResults(before, a + b, iterate)
         == IterateResults(before, a, iterate) + IterateResults(before + a, b, iterate)
    decreases |a|
  {
    if a == [] {
      assert a + b == b;
      assert before + a == before;
    } else {
      var upTo := before + [a[0]];
      var head := if a[0].Iterate? then [iterate(upTo)] else [];
      assert (a + b)[0] == a[0];
      assert (a + b)[1..] == a[1..] + b;
      assert upTo + a[1..] == before + a;
      calc {
        IterateResults(before, a + b, iterate);
        head + IterateResults(upTo, a[1..] + b, iterate);
        { IterateResultsAppend(upTo, a[1..], b, iterate); }
        head + (IterateResults(upTo, a[1..], iterate) + IterateResults(before + a, b, iterate));
        (head + IterateResults(upTo, a[1..], iterate)) + IterateResults(before + a, b, iterate);
        IterateResults(before, a, iterate) + IterateResults(before + a, b, iterate);
      }
    }
  }

  /** Counting `_iterate` calls distributes over concatenation. */
  lemma {:induction false} CountIteratesAppend(a: seq<Event>, b: seq<Event>)
    ensures CountIterates(a + b) == CountIterates(a) + CountIterates(b)
    decreases |a|
  {
    if a == [] {
      assert a + b == b;
    } else {
      assert (a + b)[1..] == a[1..] + b;
      CountIteratesAppend(a[1..], b);
    }
  }

  /** A call sequence without `_iterate` calls counts none. */
  lemma {:induction false} CountIteratesNone(calls: seq<Event>)
    requires forall i :: 0 <= i < |calls| ==> !calls[i].Iterate?
    ensures CountIterates(calls) == 0
    decreases |calls|
  {
    if calls != [] {
      CountIteratesNone(calls[1..]);
    }
  }

  /** One `_iterate` call between two sequences without any counts one. */
  lemma CountIteratesSingle(pre: seq<Event>, e: Event, post: seq<Event>)
    requires e.Iterate?
    requires forall i :: 0 <= i < |pre| ==> !pre[i].Iterate?
    requires forall i :: 0 <= i < |post| ==> !post[i].Iterate?
    ensures CountIterates(pre + [e] + post) == 1
  {
    CountIteratesNone(pre);
    CountIteratesNone(post);
    CountIteratesAppend(pre, [e]);
    CountIteratesAppend(pre + [e], post);
  }

  /**
   * A call sequence whose only `_iterate` call is its last one yields exactly
   * the result of that call, made after everything before it.
   */
  lemma {:induction false} LastIterateResult(before: seq<Event>, calls: seq<Event>, iterate: seq<Event> -> Stats)
    requires |calls| > 0 && calls[|calls| - 1].Iterate?
    requires forall i :: 0 <= i < |calls| - 1 ==> !calls[i].Iterate?
    ensures IterateResults(before, calls, iterate) == [iterate(before + calls)]
    decreases |calls|
  {
    var upTo := before + [calls[0]];
    if |calls| == 1 {
      assert calls[1..] == [];
      assert upTo == before + calls;
    } else {
      assert !calls[0].Iterate?;
      LastIterateResult(upTo, calls[1..], iterate);
      assert upTo + calls[1..] == before + calls;
    }
  }

  /** A call sequence without `_iterate` calls returns no statistics. */
  lemma {:induction false} NoIterateResults(before: seq<Event>, calls: seq<Event>, iterate: seq<Event> -> Stats)
    requires forall i :: 0 <= i < |calls| ==> !calls[i].Iterate?
    ensures IterateResults(before, calls, iterate) == []
    decreases |calls|
  {
    if calls != [] {
      NoIterateResults(before + [calls[0]], calls[1..], iterate);
    }
  }

  /**
   * One `_iterate` call between two sequences without any returns exactly what
   * that call returned, made after `before` and `pre`.
   */
  lemma SingleIterateResult(before: seq<Event>, pre: seq<Event>, e: Event, post: seq<Event>, iterate: seq<Event> -> Stats)
    requires e.Iterate?
    requires forall i :: 0 <= i < |pre| ==> !pre[i].Iterate?
    requires forall i :: 0 <= i < |post| ==> !post[i].Iterate?
    ensures IterateResults(before, pre + [e] + post, iterate) == [iterate(before + pre + [e])]
  {
    IterateResultsAppend(before, pre + [e], post, iterate);
    LastIterateResult(before, pre + [e], iterate);
    NoIterateResults(before + (pre + [e]), post, iterate);
    assert before + (pre + [e]) == before + pre + [e];
  }
}
