/**
 * The placeholder physiology model: a loop over the request's windows that merges
 * their feature maps and collects the peak amplitudes, then a decision tail that
 * clamps the probability, derives a confidence, and picks an action and an
 * interpretation.
 *
 * The numerics are not modelled: feature extraction, the mean, the population
 * standard deviation and the logistic function are inputs, and reals stand for
 * floating-point numbers.
 */
module StressModel {
  import opened Wrappers
  import opened Schemas

  /** The five statistics `_extract_features` computes for one window. */
  datatype WindowFeatures = WindowFeatures(mean: real, std: real, max: real, min: real, slope: real)

  /** The numerical routines the model calls. */
  datatype Numerics = Numerics(
    extract: SignalWindow -> WindowFeatures,
    mean: seq<real> -> real,
    pstdev: seq<real> -> real,
    logistic: real -> real)

  const ModelVersion := "cnn_lstm_synthetic_v0"
  const Elevated := "Elevated sympathetic arousal detected based on recent wearable samples."
  const WithinBounds := "Stress markers remain within acceptable bounds."

  /** The feature dictionary of one window: each statistic under `<sensor>_<name>`. */
  function FeatureMap(sensor: string, f: WindowFeatures): (m: map<string, real>)
    ensures sensor + "_max" in m && m[sensor + "_max"] == f.max
    ensures m != map[]
  {
    map[sensor + "_mean" := f.mean, sensor + "_std" := f.std, sensor + "_min" := f.min,
        sensor + "_slope" := f.slope, sensor + "_max" := f.max]
  }

  /** The feature dictionaries of the windows, in order. */
  function FeatureMaps(windows: seq<SignalWindow>, num: Numerics): (r: seq<map<string, real>>)
    ensures |r| == |windows|
    ensures forall k :: 0 <= k < |windows| ==> r[k] == FeatureMap(windows[k].sensor, num.extract(windows[k]))
  {
    seq(|windows|, k requires 0 <= k < |windows| => FeatureMap(windows[k].sensor, num.extract(windows[k])))
  }

  /** Repeated `dict.update`: later dictionaries overwrite earlier ones on shared keys. */
  function Combined(maps: seq<map<string, real>>): map<string, real>
  {
    if maps == [] then map[] else Combined(maps[..|maps| - 1]) + maps[|maps| - 1]
  }

  /** The merged keys are the union of all keys, and each value comes from the last dictionary holding its key. */
  lemma {:induction false} CombinedLastWins(maps: seq<map<string, real>>, key: string, j: nat)
    requires j < |maps| && key in maps[j]
    requires forall k :: j < k < |maps| ==> key !in maps[k]
    ensures key in Combined(maps) && Combined(maps)[key] == maps[j][key]
    decreases |maps|
  {
    if j < |maps| - 1 {
      CombinedLastWins(maps[..|maps| - 1], key, j);
    }
  }

  /** A key is merged exactly when some dictionary holds it. */
  lemma {:induction false} CombinedKeys(maps: seq<map<string, real>>, key: string)
    ensures key in Combined(maps) <==> exists k :: 0 <= k < |maps| && key in maps[k]
    decreases |maps|
  {
    if maps != [] {
      var init := maps[..|maps| - 1];
      CombinedKeys(init, key);
      if key in Combined(maps) && key !in maps[|maps| - 1] {
        var k :| 0 <= k < |init| && key in init[k];
        assert key in maps[k];
      }
      if exists k :: 0 <= k < |maps| && key in maps[k] {
        var k :| 0 <= k < |maps| && key in maps[k];
        if k < |init| {
          assert key in init[k];
        }
      }
    }
  }

  /** With at least one window the merged features are non-empty. */
  lemma FeaturesNonEmpty(windows: seq<SignalWindow>, num: Numerics)
    requires |windows| >= 1
    ensures Combined(FeatureMaps(windows, num)) != map[]
  {
    var maps := FeatureMaps(windows, num);
    var key := windows[0].sensor + "_max";
    assert key in maps[0];
    CombinedKeys(maps, key);
  }

  function Abs(x: real): real { if x < 0.0 then -x else x }

  /** The absolute peak of each window, in order. */
  function Amplitudes(windows: seq<SignalWindow>, num: Numerics): (r: seq<real>)
    ensures |r| == |windows|
    ensures forall k :: 0 <= k < |windows| ==> r[k] == Abs(num.extract(windows[k]).max) >= 0.0
  {
    seq(|windows|, k requires 0 <= k < |windows| => Abs(num.extract(windows[k]).max))
  }

  // ---------------------------------------------------------------------------
  // The decision tail.

  /** `max(0.01, min(0.99, x))`: always in [0.01, 0.99], and `x` itself when already there. */
  function Clamp(x: real): (r: real)
    ensures 0.01 <= r <= 0.99
    ensures 0.01 <= x <= 0.99 ==> r == x
    ensures x < 0.01 ==> r == 0.01
    ensures x > 0.99 ==> r == 0.99
  {
    if x > 0.99 then 0.99 else if x < 0.01 then 0.01 else x
  }

  /** The spread of the amplitudes; a single window counts as 0.1. */
  function Variability(amplitudes: seq<real>, num: Numerics): real
  {
    if |amplitudes| > 1 then num.pstdev(amplitudes) else 0.1
  }

  /** `0.6 + min(0.39, variability)`: never above 0.99, and at least 0.6 for a non-negative variability. */
  function Confidence(variability: real): (c: real)
    ensures c <= 0.99
    ensures variability >= 0.0 ==> c >= 0.6
    ensures variability >= 0.39 ==> c == 0.99
  {
    0.6 + (if variability < 0.39 then variability else 0.39)
  }

  /** The action for a probability. */
  function RecommendedAction(p: real): (a: string)
    ensures a in Actions
    ensures a == "escalate" <==> p >= 0.9
    ensures a == "reach_out" <==> 0.7 <= p < 0.9
    ensures a == "monitor" <==> p < 0.7
  {
    if p >= 0.9 then "escalate" else if p >= 0.7 then "reach_out" else "monitor"
  }

  /** The interpretation for a probability: the elevated text exactly from 0.7 up. */
  function Interpretation(p: real): (s: string)
    ensures s == Elevated <==> p >= 0.7
    ensures s == WithinBounds <==> p < 0.7
  {
    if p >= 0.7 then Elevated else WithinBounds
  }

  /** Escalating and reaching out always come with the elevated interpretation. */
  lemma ActionAgreesWithInterpretation(p: real)
    ensures RecommendedAction(p) != "monitor" <==> Interpretation(p) == Elevated
  {
  }

  /** The result record `run_stress_model` builds for a validated request, before its own validation. */
  function Inference(request: StressInferenceRequest, num: Numerics): StressInferenceResult
  {
    var amplitudes := Amplitudes(request.windows, num);
    var variability := Variability(amplitudes, num);
    var logits := 1.3 * num.mean(amplitudes) + 0.6 * variability;
    var p := Clamp(num.logistic(logits));
    StressInferenceResult(request.userId, p, Confidence(variability), Interpretation(p), RecommendedAction(p),
                          ModelVersion, Combined(FeatureMaps(request.windows, num)))
  }

  /**
   * What the result promises: the user is echoed, the probability lies in
   * [0.01, 0.99], action and interpretation follow the thresholds, the version is
   * fixed, and the features are the merged per-window dictionaries, non-empty.
   */
  lemma InferenceProperties(request: StressInferenceRequest, num: Numerics)
    requires |request.windows| >= 1
    ensures var r := Inference(request, num);
      && r.userId == request.userId
      && 0.01 <= r.stressProb <= 0.99 && UnitInterval(r.stressProb)
      && r.confidence <= 0.99
      && r.recommendedAction == RecommendedAction(r.stressProb)
      && (r.interpretation == Elevated <==> r.stressProb >= 0.7)
      && r.modelVersion == ModelVersion
      && r.features == Combined(FeatureMaps(request.windows, num)) && r.features != map[]
  {
    FeaturesNonEmpty(request.windows, num);
  }

  /**
   * The result fails its own validation only through the confidence, and only
   * when the variability is below -0.6; so with a non-negative standard deviation
   * a validated request always yields a result.
   */
  lemma ResultValidates(request: StressInferenceRequest, num: Numerics)
    ensures BuildResult(Inference(request, num)).Ok?
            <==> Variability(Amplitudes(request.windows, num), num) >= -0.6
    ensures (forall xs :: num.pstdev(xs) >= 0.0) ==> BuildResult(Inference(request, num)).Ok?
  {
  }

  /** The window loop: merge each window's features and collect its absolute peak. */
  method Accumulate(windows: seq<SignalWindow>, num: Numerics) returns (combined: map<string, real>, amplitudes: seq<real>)
    ensures combined == Combined(FeatureMaps(windows, num))
    ensures amplitudes == Amplitudes(windows, num)
  {
    combined := map[];
    amplitudes := [];
    ghost var maps := FeatureMaps(windows, num);
    for k := 0 to |windows|
      invariant combined == Combined(maps[..k])
      invariant amplitudes == Amplitudes(windows, num)[..k]
    {
      var window := windows[k];
      var features := FeatureMap(window.sensor, num.extract(window));
      assert maps[..k + 1][..k] == maps[..k];
      combined := combined + features;
      amplitudes := amplitudes + [Abs(features[window.sensor + "_max"])];
    }
    assert maps[..|windows|] == maps;
  }

  /**
   * `run_stress_model(payload)`: validate the request, loop over its windows
   * merging features and collecting amplitudes, then apply the decision tail.
   * It changes nothing.
   */
  method RunStressModel(payload: RequestInput, num: Numerics) returns (r: Result<StressInferenceResult, string>)
    ensures ValidateRequest(payload).Err? ==> r.Err?
    ensures ValidateRequest(payload).Ok? ==> r == BuildResult(Inference(ValidateRequest(payload).value, num))
  {
    var checked := ValidateRequest(payload);
    if checked.Err? {
      return Err(checked.error);
    }
    var request := checked.value;
    var combined, amplitudes := Accumulate(request.windows, num);
    var variability := if |amplitudes| > 1 then num.pstdev(amplitudes) else 0.1;
    var logits := 1.3 * num.mean(amplitudes) + 0.6 * variability;
    var stressProb := Clamp(num.logistic(logits));
    assert variability == Variability(Amplitudes(request.windows, num), num);
    var confidence := 0.6 + (if variability < 0.39 then variability else 0.39);
    assert confidence == Confidence(variability);
    var action := "monitor";
    if stressProb >= 0.9 {
      action := "escalate";
    } else if stressProb >= 0.7 {
      action := "reach_out";
    }
    assert action == RecommendedAction(stressProb);
    var interpretation := if stressProb >= 0.7 then Elevated else WithinBounds;
    assert StressInferenceResult(request.userId, stressProb, confidence, interpretation, action, ModelVersion, combined)
        == Inference(request, num);
    r := BuildResult(StressInferenceResult(request.userId, stressProb, confidence, interpretation, action, ModelVersion, combined));
  }
}
