/** The session loop and its accounting (burn-tokens.js:101-107, 171-289): each
    iteration selects a kind and a model, issues one request, and folds the
    request's outcome into the running statistics; iterations are separated by
    a pacing delay.

    The remote API is abstract: each iteration receives a `Reply`, decided
    before any counter is touched. Counters are updated only from the decided
    outcome, so an exception raised by verbose logging after the counters have
    moved is not modelled. */
module Session {
  import opened Catalog
  import opened Selector
  import opened CostEstimator
  import opened ImagePrompts

  /** What the remote API returned for one request. An image response carries
      no usage the script reads; the usage of an `Answered` image request is
      ignored. */
  datatype Reply = Answered(usage: Usage) | Failed

  /** The accounting-relevant result of one iteration. */
  datatype Outcome =
    | TextSuccess(model: string, tokens: nat, cost: real)
    | ImageSuccess(model: string, cost: real)
    | Failure

  /** Running totals of the session. */
  datatype Stats = Stats(
    totalTokensUsed: nat,
    totalCost: real,
    successfulRequests: nat,
    failedRequests: nat,
    textRequests: nat,
    imageRequests: nat)

  /** All counters start at zero. */
  const Initial: Stats := Stats(0, 0.0, 0, 0, 0, 0)

  /** Size of every image request; its quality is `DefaultImageQuality`. */
  const ImageSize: string := "1024x1024"

  /** Output budget of every text request. */
  const MaxCompletionTokens: nat := 4000

  /** The parameters of a text request that shape its cost. */
  datatype TextRequest = TextRequest(model: string, maxCompletionTokens: nat, highVerbosity: bool)

  /** The parameters of an image request. */
  datatype ImageRequest = ImageRequest(model: string, prompt: string, count: nat, size: string, quality: string)

  /** Whether `sub` occurs in `s` as a contiguous block. */
  predicate Contains(s: string, sub: string) {
    exists i :: 0 <= i <= |s| && sub <= s[i..]
  }

  /** The text request for a model: verbosity is raised for GPT-5 models, that
      is, exactly when "gpt-5" occurs somewhere in the model name. */
  function BuildTextRequest(model: string): (req: TextRequest)
    ensures req.model == model && req.maxCompletionTokens == MaxCompletionTokens
    ensures req.highVerbosity <==> exists before, after :: model == before + "gpt-5" + after
    ensures "gpt-5" <= model ==> req.highVerbosity
    ensures (forall k :: 0 <= k < |model| ==> model[k] != '5') ==> !req.highVerbosity
  {
    assert model[0..] == model;
    EveryMatchHasAFive(model);
    OccurrenceSplitsName(model);
    TextRequest(model, MaxCompletionTokens, Contains(model, "gpt-5"))
  }

  /** Any occurrence of "gpt-5" puts a '5' into the name. */
  lemma EveryMatchHasAFive(model: string)
    ensures Contains(model, "gpt-5") ==> exists k :: 0 <= k < |model| && model[k] == '5'
  {
    if Contains(model, "gpt-5") {
      var i :| 0 <= i <= |model| && "gpt-5" <= model[i..];
      assert model[i..][4] == model[i + 4] == '5';
    }
  }

  /** An occurrence of "gpt-5" is a split of the name around that text. */
  lemma OccurrenceSplitsName(model: string)
    ensures Contains(model, "gpt-5") <==> exists before, after :: model == before + "gpt-5" + after
  {
    if Contains(model, "gpt-5") {
      var i :| 0 <= i <= |model| && "gpt-5" <= model[i..];
      assert model == model[..i] + "gpt-5" + model[i + 5..];
    }
    if exists before, after :: model == before + "gpt-5" + after {
      var before, after :| model == before + "gpt-5" + after;
      assert model[|before|..] == "gpt-5" + after;
    }
  }

  /** The name "gpt-5" raises verbosity wherever it occurs in the model name,
      not only at its start. */
  lemma EmbeddedNameGetsHighVerbosity(before: string, after: string)
    ensures BuildTextRequest(before + "gpt-5" + after).highVerbosity
  {
    var model := before + "gpt-5" + after;
    assert model[|before|..] == "gpt-5" + after;
  }

  /** Every catalogued text model is asked for high verbosity. */
  lemma TextModelsGetHighVerbosity(model: string)
    requires model in TextModels.Values
    ensures BuildTextRequest(model).highVerbosity
  {
  }

  /** The image request of an iteration: one high-quality square image. */
  function BuildImageRequest(iteration: nat, model: string): ImageRequest {
    ImageRequest(model, GenerateImagePrompt(iteration), 1, ImageSize, DefaultImageQuality)
  }

  /** The cost of a successful outcome, zero for a failure. */
  function OutcomeCost(o: Outcome): real {
    match o
    case TextSuccess(_, _, c) => c
    case ImageSuccess(_, c) => c
    case Failure => 0.0
  }

  /** The tokens of a successful text outcome, zero otherwise. */
  function OutcomeTokens(o: Outcome): nat {
    if o.TextSuccess? then o.tokens else 0
  }

  /** The cost an outcome of the session can carry: a text outcome a
      non-negative estimate, an image outcome exactly the fallback tier. */
  predicate Priced(o: Outcome) {
    match o
    case TextSuccess(_, _, c) => c >= 0.0
    case ImageSuccess(_, c) => c == FallbackImageCost
    case Failure => true
  }

  /** One iteration (burnTokens): select kind and model, then account the reply.
      A failed reply becomes a failure whatever the kind. */
  function Attempt(cfg: Config, iteration: int, draw: real, reply: Reply): (o: Outcome)
    requires iteration >= 1
    requires 0.0 <= draw < 1.0
    ensures reply.Failed? <==> o.Failure?
    ensures o.TextSuccess? ==> KindOf(cfg, iteration) == Text && o.model in TextModels.Values
    ensures o.ImageSuccess? ==> KindOf(cfg, iteration) == Image && o.model in ImageModels.Values
    ensures !o.Failure? && !IsMixedMode(cfg.modelArg) ==> o.model == SelectedModel(cfg.modelArg)
    ensures !o.Failure? ==> o.model == ModelFor(cfg, iteration, draw)
    ensures o.TextSuccess? ==>
      o.tokens == reply.usage.totalTokens && o.cost == CalculateCost(reply.usage, o.model)
    ensures o.ImageSuccess? ==> o.cost == CalculateImageCost(o.model, ImageSize, DefaultImageQuality)
    ensures Priced(o)
  {
    var useImage := ShouldGenerateImage(cfg, iteration);
    var model := ModelFor(cfg, iteration, draw);
    match reply
    case Failed => Failure
    case Answered(usage) =>
      if useImage then
        assert ImageCostListed(model, ImageSize, DefaultImageQuality);
        ImageSuccess(model, CalculateImageCost(model, ImageSize, DefaultImageQuality))
      else
        TextSuccess(model, usage.totalTokens, CalculateCost(usage, model))
  }

  /** A text request is always sent to a model the price table knows, so its
      estimate is never the unknown-model zero. */
  lemma TextRequestsArePriced(cfg: Config, iteration: int, draw: real, usage: Usage)
    requires iteration >= 1
    requires 0.0 <= draw < 1.0
    requires KindOf(cfg, iteration) == Text
    ensures ModelFor(cfg, iteration, draw) in CostPerMillionTokens
    ensures usage.promptTokens > 0 ==> OutcomeCost(Attempt(cfg, iteration, draw, Answered(usage))) > 0.0
  {
  }

  /** The image that is charged is the image that is requested: an image
      success costs the table price of the model, size and quality its request
      was sent with. */
  lemma ImageChargeMatchesRequest(cfg: Config, iteration: nat, draw: real, usage: Usage)
    requires iteration >= 1
    requires 0.0 <= draw < 1.0
    requires KindOf(cfg, iteration) == Image
    ensures var o := Attempt(cfg, iteration, draw, Answered(usage));
      var req := BuildImageRequest(iteration, ModelFor(cfg, iteration, draw));
      o.ImageSuccess? && o.model == req.model &&
      o.cost == CalculateImageCost(req.model, req.size, req.quality)
  {
  }

  /** Folds one outcome into the totals: exactly one of the success and failure
      counters moves, the outcome's tokens and cost are added, and a failure
      leaves the totals alone. */
  function Account(s: Stats, o: Outcome): (r: Stats)
    ensures r.successfulRequests + r.failedRequests == s.successfulRequests + s.failedRequests + 1
    ensures o.Failure? <==> r.failedRequests == s.failedRequests + 1
    ensures !o.Failure? ==>
      r.successfulRequests == s.successfulRequests + 1 && r.failedRequests == s.failedRequests
    ensures r.totalTokensUsed == s.totalTokensUsed + OutcomeTokens(o)
    ensures r.totalCost == s.totalCost + OutcomeCost(o)
    ensures r.textRequests == s.textRequests + (if o.TextSuccess? then 1 else 0)
    ensures r.textRequests + r.imageRequests - r.successfulRequests
         == s.textRequests + s.imageRequests - s.successfulRequests
  {
    match o
    case TextSuccess(_, tokens, cost) =>
      s.(totalTokensUsed := s.totalTokensUsed + tokens,
         totalCost := s.totalCost + cost,
         successfulRequests := s.successfulRequests + 1,
         textRequests := s.textRequests + 1)
    case ImageSuccess(_, cost) =>
      s.(totalCost := s.totalCost + cost,
         successfulRequests := s.successfulRequests + 1,
         imageRequests := s.imageRequests + 1)
    case Failure =>
      s.(failedRequests := s.failedRequests + 1)
  }

  /** The statistics after the given outcomes, in order. */
  function Tally(os: seq<Outcome>): (r: Stats)
    ensures r.successfulRequests + r.failedRequests == |os|
    ensures r.textRequests + r.imageRequests == r.successfulRequests
    ensures r.successfulRequests == 0 ==> r.totalTokensUsed == 0 && r.totalCost == 0.0
  {
    if |os| == 0 then Initial
    else
      assert os == os[..|os| - 1] + [os[|os| - 1]];
      Account(Tally(os[..|os| - 1]), os[|os| - 1])
  }

  /** The failure counter is the number of failed outcomes. */
  lemma {:induction false} FailuresAreCounted(os: seq<Outcome>)
    ensures Tally(os).failedRequests == multiset(os)[Failure]
  {
    if |os| > 0 {
      var init := os[..|os| - 1];
      FailuresAreCounted(init);
      assert os == init + [os[|os| - 1]];
    }
  }

  /** Sum of the outcomes' tokens, from the front. */
  function SumTokens(os: seq<Outcome>): nat {
    if |os| == 0 then 0 else OutcomeTokens(os[0]) + SumTokens(os[1..])
  }

  /** Sum of the outcomes' costs, from the front. */
  function SumCost(os: seq<Outcome>): real {
    if |os| == 0 then 0.0 else OutcomeCost(os[0]) + SumCost(os[1..])
  }

  /** Appending an outcome adds its tokens and cost to the sums. */
  lemma {:induction false} SumsOfAppend(os: seq<Outcome>, o: Outcome)
    ensures SumTokens(os + [o]) == SumTokens(os) + OutcomeTokens(o)
    ensures SumCost(os + [o]) == SumCost(os) + OutcomeCost(o)
  {
    if |os| > 0 {
      assert (os + [o])[1..] == os[1..] + [o];
      SumsOfAppend(os[1..], o);
    }
  }

  /** The token and cost totals are the sums of the outcomes' tokens and costs. */
  lemma {:induction false} TotalsAreSums(os: seq<Outcome>)
    ensures Tally(os).totalTokensUsed == SumTokens(os)
    ensures Tally(os).totalCost == SumCost(os)
  {
    if |os| > 0 {
      var init := os[..|os| - 1];
      TotalsAreSums(init);
      SumsOfAppend(init, os[|os| - 1]);
      assert os == init + [os[|os| - 1]];
    }
  }

  /** Extending a prefix by one outcome accounts that outcome. */
  lemma TallyStep(os: seq<Outcome>, i: nat)
    requires 1 <= i <= |os|
    ensures Tally(os[..i]) == Account(Tally(os[..i - 1]), os[i - 1])
  {
    assert os[..i][..i - 1] == os[..i - 1];
  }

  /** The outcomes of a session whose i-th iteration (1-based) drew `draws[i-1]`
      and received `replies[i-1]`. */
  function Outcomes(cfg: Config, draws: seq<real>, replies: seq<Reply>): (os: seq<Outcome>)
    requires |draws| == |replies|
    requires forall k :: 0 <= k < |draws| ==> 0.0 <= draws[k] < 1.0
    ensures |os| == |replies|
    ensures forall k :: 0 <= k < |os| ==> os[k] == Attempt(cfg, k + 1, draws[k], replies[k])
  {
    seq(|replies|, k requires 0 <= k < |replies| => Attempt(cfg, k + 1, draws[k], replies[k]))
  }

  /** The pacing delays of an n-iteration session: one between each pair of
      consecutive iterations, none after the last. */
  function DelayCount(n: nat): nat {
    if n == 0 then 0 else n - 1
  }

  /** The session loop (main): runs every iteration in order, never stopping on
      a failure, and pauses between iterations. */
  method RunSession(cfg: Config, draws: seq<real>, replies: seq<Reply>) returns (stats: Stats, delays: nat)
    requires |draws| == |replies|
    requires forall k :: 0 <= k < |draws| ==> 0.0 <= draws[k] < 1.0
    ensures stats == Tally(Outcomes(cfg, draws, replies))
    ensures stats.successfulRequests + stats.failedRequests == |replies|
    ensures delays == DelayCount(|replies|)
  {
    var n := |replies|;
    var os := Outcomes(cfg, draws, replies);
    stats := Initial;
    delays := 0;
    var i := 1;
    while i <= n
      invariant 1 <= i <= n + 1
      invariant stats == Tally(os[..i - 1])
      invariant delays == Min(i - 1, DelayCount(n))
    {
      var outcome := Attempt(cfg, i, draws[i - 1], replies[i - 1]);
      assert outcome == os[i - 1];
      TallyStep(os, i);
      stats := Account(stats, outcome);
      if i < n {
        delays := delays + 1;
      }
      i := i + 1;
    }
    assert os[..n] == os;
  }

  /** Cost and token totals never decrease as the session proceeds: the
      statistics of any prefix are bounded by those of the whole. */
  lemma {:induction false} TotalsAreMonotone(os: seq<Outcome>, j: nat)
    requires j <= |os|
    requires forall k :: 0 <= k < |os| ==> Priced(os[k])
    ensures Tally(os[..j]).totalCost <= Tally(os).totalCost
    ensures Tally(os[..j]).totalTokensUsed <= Tally(os).totalTokensUsed
    decreases |os|
  {
    if j < |os| {
      var init := os[..|os| - 1];
      assert init[..j] == os[..j];
      TotalsAreMonotone(init, j);
      assert OutcomeCost(os[|os| - 1]) >= 0.0;
    } else {
      assert os[..j] == os;
    }
  }

  /** Every image success costs the fallback tier, so the cost total covers at
      least that much per image. */
  lemma {:induction false} CostCoversImages(os: seq<Outcome>)
    requires forall k :: 0 <= k < |os| ==> Priced(os[k])
    ensures Tally(os).totalCost >= FallbackImageCost * Tally(os).imageRequests as real
  {
    if |os| > 0 {
      CostCoversImages(os[..|os| - 1]);
    }
  }

  /** Failures are counted once per failed reply, whatever the mode. */
  lemma FailuresMatchReplies(cfg: Config, draws: seq<real>, replies: seq<Reply>)
    requires |draws| == |replies|
    requires forall k :: 0 <= k < |draws| ==> 0.0 <= draws[k] < 1.0
    ensures Tally(Outcomes(cfg, draws, replies)).failedRequests == multiset(replies)[Failed]
  {
    var os := Outcomes(cfg, draws, replies);
    forall k | 0 <= k < |os|
      ensures os[k].Failure? <==> replies[k].Failed?
    {
      assert os[k] == Attempt(cfg, k + 1, draws[k], replies[k]);
    }
    FailuresLineUp(os, replies, |os|);
    FailuresAreCounted(os);
    assert os[..|os|] == os;
    assert replies[..|replies|] == replies;
  }

  /** Two equally long sequences that fail at the same positions hold equally
      many failures. */
  lemma {:induction false} FailuresLineUp(os: seq<Outcome>, replies: seq<Reply>, n: nat)
    requires |os| == |replies| && n <= |os|
    requires forall k :: 0 <= k < |os| ==> (os[k].Failure? <==> replies[k].Failed?)
    ensures multiset(os[..n])[Failure] == multiset(replies[..n])[Failed]
  {
    if n > 0 {
      FailuresLineUp(os, replies, n - 1);
      assert os[..n] == os[..n - 1] + [os[n - 1]];
      assert replies[..n] == replies[..n - 1] + [replies[n - 1]];
    }
  }

  /** In mixed mode, when every request is answered, the text count follows the
      period-ten schedule exactly and the rest are images. */
  lemma MixedSessionFollowsSchedule(cfg: Config, draws: seq<real>, replies: seq<Reply>, n: nat)
    requires |draws| == |replies| && n <= |replies|
    requires forall k :: 0 <= k < |draws| ==> 0.0 <= draws[k] < 1.0
    requires forall k :: 0 <= k < |replies| ==> replies[k].Answered?
    requires IsMixedMode(cfg.modelArg)
    ensures Tally(Outcomes(cfg, draws, replies)[..n]).textRequests ==
      (n / CycleLength) * TextSlots(cfg) + Min(n % CycleLength, TextSlots(cfg))
    ensures Tally(Outcomes(cfg, draws, replies)[..n]).imageRequests == n - TextIterations(cfg, n)
  {
    MixedTextIterations(cfg, n);
    TextCountMatchesKinds(cfg, draws, replies, n);
  }

  /** When every request is answered, the text and image counters after n
      iterations are the numbers of text and image iterations among 1..n. */
  lemma TextCountMatchesKinds(cfg: Config, draws: seq<real>, replies: seq<Reply>, n: nat)
    requires |draws| == |replies| && n <= |replies|
    requires forall k :: 0 <= k < |draws| ==> 0.0 <= draws[k] < 1.0
    requires forall k :: 0 <= k < |replies| ==> replies[k].Answered?
    ensures Tally(Outcomes(cfg, draws, replies)[..n]).textRequests == TextIterations(cfg, n)
    ensures Tally(Outcomes(cfg, draws, replies)[..n]).imageRequests == n - TextIterations(cfg, n)
  {
    var os := Outcomes(cfg, draws, replies);
    forall i | 1 <= i <= |os|
      ensures FollowsKind(cfg, os, i)
    {
      assert os[i - 1] == Attempt(cfg, i, draws[i - 1], replies[i - 1]);
    }
    SuccessesFollowKinds(cfg, os, n);
    assert |os[..n]| == n;
  }

  /** The outcome of the 1-based iteration `i` succeeded with the kind that
      iteration selects. */
  predicate FollowsKind(cfg: Config, os: seq<Outcome>, i: nat)
    requires 1 <= i <= |os|
  {
    !os[i - 1].Failure? && (os[i - 1].TextSuccess? <==> KindOf(cfg, i) == Text)
  }

  /** Outcomes that all succeed with their iteration's kind are tallied as
      the schedule prescribes. */
  lemma {:induction false} SuccessesFollowKinds(cfg: Config, os: seq<Outcome>, n: nat)
    requires n <= |os|
    requires forall i :: 1 <= i <= |os| ==> FollowsKind(cfg, os, i)
    ensures Tally(os[..n]).textRequests == TextIterations(cfg, n)
    ensures Tally(os[..n]).failedRequests == 0
  {
    if n > 0 {
      SuccessesFollowKinds(cfg, os, n - 1);
      TallyStep(os, n);
      assert FollowsKind(cfg, os, n);
      var before, after := Tally(os[..n - 1]), Tally(os[..n]);
      var step := if KindOf(cfg, n) == Text then 1 else 0;
      assert TextIterations(cfg, n) == TextIterations(cfg, n - 1) + step;
      assert after.textRequests == before.textRequests + step;
    }
  }

  /** A session of six iterations whose odd iterations fail and even ones
      succeed ends with three of each, all six iterations having run. */
  lemma AlternatingFailuresScenario(cfg: Config, draws: seq<real>, u: Usage)
    requires |draws| == 6
    requires forall k :: 0 <= k < |draws| ==> 0.0 <= draws[k] < 1.0
    ensures var replies := [Failed, Answered(u), Failed, Answered(u), Failed, Answered(u)];
      var s := Tally(Outcomes(cfg, draws, replies));
      s.failedRequests == 3 && s.successfulRequests == 3
  {
    var replies := [Failed, Answered(u), Failed, Answered(u), Failed, Answered(u)];
    FailuresMatchReplies(cfg, draws, replies);
    assert multiset(replies)[Failed] == 3;
  }
}
