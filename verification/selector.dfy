/** Mode and model selection (burn-tokens.js:29-30, 143-169, 245-254): whether the
    run is in mixed or single-model mode, whether an iteration issues a text or
    an image request, and which concrete model serves it. */
module Selector {
  import opened Catalog

  /** The parsed run configuration the selector depends on: the `--model=`
      argument and the text part of the `--mix-ratio=` argument. */
  datatype Config = Config(modelArg: string, textRatio: nat)

  /** The mode label the source falls back to when no catalog knows the argument. */
  const MixedLabel: string := "mixed"

  /** Iterations are grouped into cycles of this many positions. */
  const CycleLength: nat := 10

  /** Mixed mode: the argument is the literal "mixed" or names no catalog alias. */
  predicate IsMixedMode(modelArg: string) {
    modelArg == MixedLabel || (modelArg !in TextModels && modelArg !in ImageModels)
  }

  /** The model used in single-model mode; "mixed" when the argument names no
      alias. */
  function SelectedModel(modelArg: string): (m: string)
    ensures m == MixedLabel <==> IsMixedMode(modelArg)
    ensures modelArg in TextModels ==> m in TextModels.Values && m == TextModels[modelArg]
    ensures modelArg in ImageModels ==> m in ImageModels.Values && m == ImageModels[modelArg]
  {
    if modelArg in TextModels then TextModels[modelArg]
    else if modelArg in ImageModels then ImageModels[modelArg]
    else MixedLabel
  }

  /** Number of text positions in each cycle of mixed mode (floor division). */
  function TextPerCycle(cfg: Config): nat {
    cfg.textRatio / 10
  }

  /** Whether the 1-based `iteration` issues an image request. */
  function ShouldGenerateImage(cfg: Config, iteration: int): (image: bool)
    requires iteration >= 1
    ensures !IsMixedMode(cfg.modelArg) ==> (image <==> cfg.modelArg in ImageModels)
    ensures IsMixedMode(cfg.modelArg) && cfg.textRatio < 10 ==> image
    ensures IsMixedMode(cfg.modelArg) && cfg.textRatio >= 100 ==> !image
  {
    if !IsMixedMode(cfg.modelArg) then
      cfg.modelArg in ImageModels
    else
      var cyclePosition := (iteration - 1) % CycleLength;
      cyclePosition >= TextPerCycle(cfg)
  }

  /** The request kind of the 1-based `iteration`. */
  function KindOf(cfg: Config, iteration: int): Kind
    requires iteration >= 1
  {
    if ShouldGenerateImage(cfg, iteration) then Image else Text
  }

  /** In mixed mode the kind of an iteration depends only on its position in the
      cycle: the kind sequence repeats every ten iterations. */
  lemma KindIsPeriodic(cfg: Config, iteration: int)
    requires iteration >= 1
    ensures KindOf(cfg, iteration + CycleLength) == KindOf(cfg, iteration)
  {
    assert (iteration + CycleLength - 1) % CycleLength == (iteration - 1) % CycleLength;
  }

  /** Outside mixed mode every iteration has the same kind: image exactly when the
      argument is an image alias. */
  lemma SingleModeKindIsFixed(cfg: Config, i: int, j: int)
    requires !IsMixedMode(cfg.modelArg)
    requires i >= 1 && j >= 1
    ensures KindOf(cfg, i) == KindOf(cfg, j)
    ensures KindOf(cfg, i) == Image <==> cfg.modelArg in ImageModels
  {
  }

  /** With the default 70:30 ratio the first cycle is seven text requests
      followed by three image requests. */
  lemma DefaultRatioPattern(modelArg: string)
    requires IsMixedMode(modelArg)
    ensures var cfg := Config(modelArg, 70);
      (forall i :: 1 <= i <= 7 ==> KindOf(cfg, i) == Text) &&
      (forall i :: 8 <= i <= 10 ==> KindOf(cfg, i) == Image)
  {
  }

  /** In mixed mode, an iteration is text exactly when its position in the cycle
      is one of the first `min(textRatio / 10, 10)` positions. */
  lemma MixedKindByPosition(cfg: Config, iteration: int)
    requires IsMixedMode(cfg.modelArg)
    requires iteration >= 1
    ensures KindOf(cfg, iteration) == Text <==> (iteration - 1) % CycleLength < TextSlots(cfg)
  {
  }

  /** The number of text positions a cycle actually contains. */
  function TextSlots(cfg: Config): (t: nat)
    ensures t <= CycleLength
    ensures t == CycleLength || t == TextPerCycle(cfg)
  {
    if TextPerCycle(cfg) < CycleLength then TextPerCycle(cfg) else CycleLength
  }

  /** How many of the iterations 1..n issue a text request. */
  function TextIterations(cfg: Config, n: nat): (count: nat)
    ensures count <= n
  {
    if n == 0 then 0
    else TextIterations(cfg, n - 1) + (if KindOf(cfg, n) == Text then 1 else 0)
  }

  /** Closed form of the mixed-mode schedule: after n iterations, every complete
      cycle contributed its text slots and the incomplete last cycle
      contributed at most as many text requests as it has positions. */
  lemma {:induction false} MixedTextIterations(cfg: Config, n: nat)
    requires IsMixedMode(cfg.modelArg)
    ensures TextIterations(cfg, n) ==
      (n / CycleLength) * TextSlots(cfg) + Min(n % CycleLength, TextSlots(cfg))
  {
    if n > 0 {
      MixedTextIterations(cfg, n - 1);
      MixedKindByPosition(cfg, n);
      ClosedFormStep(n - 1, TextSlots(cfg), TextIterations(cfg, n - 1));
    }
  }

  /** One step of the closed form: iteration m + 1 adds one text request
      exactly when its cycle position m % 10 is among the t text slots. */
  lemma ClosedFormStep(m: nat, t: nat, count: int)
    requires t <= 10
    requires count == (m / 10) * t + Min(m % 10, t)
    ensures count + (if m % 10 < t then 1 else 0) == ((m + 1) / 10) * t + Min((m + 1) % 10, t)
  {
    var q := m / 10;
    if m % 10 == 9 {
      assert (m + 1) / 10 == q + 1 && (m + 1) % 10 == 0;
      assert (q + 1) * t == q * t + t;
    } else {
      assert (m + 1) / 10 == q && (m + 1) % 10 == m % 10 + 1;
    }
  }

  function Min(a: int, b: int): int {
    if a < b then a else b
  }

  /** The index `Math.floor(draw * n)` for a draw of `Math.random()`. */
  function RandomIndex(draw: real, n: nat): (k: nat)
    requires 0.0 <= draw < 1.0
    requires n > 0
    ensures k < n
  {
    var x := draw * n as real;
    assert 0.0 <= x < n as real;
    x.Floor
  }

  /** Every index is reachable: the draw k / n lands on index k. */
  lemma RandomIndexReachesEvery(k: nat, n: nat)
    requires k < n
    ensures 0.0 <= k as real / n as real < 1.0
    ensures RandomIndex(k as real / n as real, n) == k
  {
    var d := k as real / n as real;
    assert d * n as real == k as real;
  }

  /** A model drawn uniformly from the image catalog or the text catalog. */
  function SelectRandomModel(isImage: bool, draw: real): (m: string)
    requires 0.0 <= draw < 1.0
    ensures isImage ==> m in ImageModels.Values
    ensures !isImage ==> m in TextModels.Values
  {
    var kind := if isImage then Image else Text;
    KeysEnumerateCatalog(kind);
    var randomKey := Keys(kind)[RandomIndex(draw, |Keys(kind)|)];
    Models(kind)[randomKey]
  }

  /** Every model of the chosen catalog can be drawn. */
  lemma SelectRandomModelReachesEvery(isImage: bool, alias: string)
    requires alias in Models(if isImage then Image else Text)
    ensures exists draw :: (0.0 <= draw < 1.0 &&
      SelectRandomModel(isImage, draw) == Models(if isImage then Image else Text)[alias])
  {
    var kind := if isImage then Image else Text;
    KeysEnumerateCatalog(kind);
    var k :| 0 <= k < |Keys(kind)| && Keys(kind)[k] == alias;
    RandomIndexReachesEvery(k, |Keys(kind)|);
    var draw := k as real / |Keys(kind)| as real;
    assert SelectRandomModel(isImage, draw) == Models(kind)[alias];
  }

  /** The model serving the 1-based `iteration`: a random one of the iteration's
      kind in mixed mode, otherwise the configured one. */
  function ModelFor(cfg: Config, iteration: int, draw: real): (m: string)
    requires iteration >= 1
    requires 0.0 <= draw < 1.0
    ensures m in Models(KindOf(cfg, iteration)).Values
    ensures !IsMixedMode(cfg.modelArg) ==> m == SelectedModel(cfg.modelArg)
  {
    if IsMixedMode(cfg.modelArg) then
      SelectRandomModel(ShouldGenerateImage(cfg, iteration), draw)
    else
      SelectedModel(cfg.modelArg)
  }

  /** A run configured with an alias serves every iteration with the model
      that alias names, and with that model's kind. */
  lemma SingleModeServesTheNamedModel(cfg: Config, iteration: int, draw: real)
    requires iteration >= 1
    requires 0.0 <= draw < 1.0
    ensures cfg.modelArg in TextModels ==>
      KindOf(cfg, iteration) == Text && ModelFor(cfg, iteration, draw) == TextModels[cfg.modelArg]
    ensures cfg.modelArg in ImageModels ==>
      KindOf(cfg, iteration) == Image && ModelFor(cfg, iteration, draw) == ImageModels[cfg.modelArg]
  {
  }

  /** Outside mixed mode the same concrete model serves every iteration,
      whatever the random draws. */
  lemma SingleModeModelIsFixed(cfg: Config, i: int, j: int, d: real, e: real)
    requires !IsMixedMode(cfg.modelArg)
    requires i >= 1 && j >= 1
    requires 0.0 <= d < 1.0 && 0.0 <= e < 1.0
    ensures ModelFor(cfg, i, d) == ModelFor(cfg, j, e) != MixedLabel
  {
  }
}
