# Token burner session scheduler — Dafny model

This project models the decision and accounting core of `burn-tokens.js`. The
script issues a configured number of billed requests to a generative-AI API
and keeps running usage and cost statistics. Each request is either a text
completion or an image generation.

The model covers:

- **Mode resolution.** The `--model=` argument selects a single-model run when
  it names an alias of the text catalog `MODELS` or of the image catalog
  `IMAGE_MODELS`. Any other argument selects a mixed run.
- **Kind selection.** In a single-model run every iteration has the kind of the
  configured model's catalog. In a mixed run, the 1-based iteration `i` is an
  image exactly when `(i - 1) % 10 >= floor(textRatio / 10)`.
- **Model selection.** `selectRandomModel` draws a model from the catalog of
  the iteration's kind. `Math.random()` becomes a `draw` parameter in `[0, 1)`,
  and the index is `floor(draw * n)`, as in the source.
- **Cost estimation.** Text cost is a per-million-token price lookup followed by
  a linear formula. Image cost is a three-level table lookup that falls back to
  0.19 on any miss. Prices are exact rationals (`real`).
- **Image prompt choice.** An iteration indexes 10 themes by `iteration % 10`
  and 8 styles by `iteration % 8`.
- **Session accounting.** The `main` loop over `burnTokens` is a fold of
  per-iteration outcomes into a `Stats` record. The remote API's answer for each
  iteration is an abstract `Reply`: `Answered(usage)` or `Failed`. The loop also
  counts its pacing delays.

Modules: `Catalog` (catalog.dfy), `Selector` (selector.dfy), `CostEstimator`
(cost_estimator.dfy), `ImagePrompts` (image_prompts.dfy), `Session`
(session.dfy).

The accounting invariant assumes each iteration's outcome is decided before any
counter moves. The source can break this: verbose logging after the counters
are updated may throw, and that iteration is then counted as both a success and
a failure (see "Left out").

Two facts of the code shape the model:

- Image prompts are a fixed theme plus a fixed style. They carry no time-based
  entropy and no nonce.
- The `--mix-ratio=` image part `imageRatio` is read only to compute
  `totalRatio` (burn-tokens.js:34), and `totalRatio` is never read. The image
  share of a cycle is whatever the text share leaves.

## Model

| member | source | states |
|---|---|---|
| Catalog.KeysEnumerateCatalog | burn-tokens.js:11-19 | each catalog's enumerated key list is non-empty, duplicate-free and holds exactly that catalog's aliases |
| Catalog.CatalogsAreDisjoint | burn-tokens.js:11-19 | no alias is in both catalogs and no concrete identifier is empty, so the source's truthiness tests coincide with key membership |
| Selector.SelectedModel | burn-tokens.js:29-30 | the single-model value is "mixed" exactly when the run is in mixed mode; otherwise it is the concrete model the argument's alias names in its catalog |
| Selector.ShouldGenerateImage | burn-tokens.js:144-156 | outside mixed mode an iteration is an image iff the argument is an image alias; in mixed mode a ratio below 10 makes every iteration an image and a ratio of 100 or more makes every iteration text |
| Selector.KindIsPeriodic | burn-tokens.js:152-155 | the kind of iteration i equals the kind of iteration i + 10 |
| Selector.SingleModeKindIsFixed | burn-tokens.js:145-147 | outside mixed mode all iterations have the same kind, which is image iff the argument is an image alias |
| Selector.DefaultRatioPattern | burn-tokens.js:149-155 | with ratio 70, iterations 1-7 are text and iterations 8-10 are images |
| Selector.MixedKindByPosition | burn-tokens.js:152-155 | in mixed mode an iteration is text iff its cycle position is below min(textRatio / 10, 10) |
| Selector.MixedTextIterations | burn-tokens.js:149-155 | closed form of the schedule: after n iterations, text count = (n / 10) * slots + min(n % 10, slots) |
| Selector.RandomIndex | burn-tokens.js:159-169 | floor(draw * n) for a draw in [0, 1) is a valid index below n |
| Selector.RandomIndexReachesEvery | burn-tokens.js:159-169 | every index k < n is produced by some draw in [0, 1) |
| Selector.SelectRandomModel | burn-tokens.js:159-169 | the drawn model is a value of IMAGE_MODELS when isImage holds, and of MODELS otherwise |
| Selector.SelectRandomModelReachesEvery | burn-tokens.js:159-169 | every model of the chosen catalog is drawn by some draw in [0, 1) |
| Selector.ModelFor | burn-tokens.js:249-254 | the model serving an iteration belongs to the catalog of that iteration's kind; outside mixed mode it is the selected model |
| Selector.SingleModeServesTheNamedModel | burn-tokens.js:29-30 | a run configured with a text alias serves every iteration as text with `MODELS[alias]`, and one configured with an image alias serves every iteration as an image with `IMAGE_MODELS[alias]` |
| Selector.SingleModeModelIsFixed | burn-tokens.js:250-254 | outside mixed mode every iteration uses the same concrete model, whatever the draws, and that model is not "mixed" |
| CostEstimator.CalculateCost | burn-tokens.js:126-133 | a text cost is non-negative, and an unknown model costs 0 |
| CostEstimator.CostIsAdditive | burn-tokens.js:126-133 | the text cost is linear: the cost of combined usage is the sum of the two costs |
| CostEstimator.CostOfAMillionTokens | burn-tokens.js:110-133 | for a known model, a million prompt tokens cost the input price and a million completion tokens cost the output price; the total-token field plays no part |
| CostEstimator.CostIsMonotone | burn-tokens.js:126-133 | more prompt or completion tokens never cost less |
| CostEstimator.ImageCostsAreBounded | burn-tokens.js:118-124 | every listed image price is in (0, 0.75] |
| CostEstimator.CalculateImageCost | burn-tokens.js:135-141 | the image cost is positive and at most 0.75; a listed triple gives its table price; a miss at the model, quality or size level gives 0.19 |
| CostEstimator.FallbackIsHighSquareTier | burn-tokens.js:135-141 | the fallback 0.19 equals the listed gpt-image-1 high-quality 1024x1024 price |
| ImagePrompts.PromptIndices | burn-tokens.js:95-96 | the theme index iteration % 10 and the style index iteration % 8 are within the list bounds |
| ImagePrompts.GenerateImagePrompt | burn-tokens.js:70-99 | the prompt begins with the selected theme and is longer than the selected theme and style together |
| ImagePrompts.IndicesRepeatExactlyEvery40 | burn-tokens.js:95-96 | two iterations select the same theme and style iff they agree modulo 40 |
| ImagePrompts.PromptIsPeriodic | burn-tokens.js:95-98 | the prompt of iteration i + 40 equals the prompt of iteration i |
| Session.BuildTextRequest | burn-tokens.js:176-190 | a text request asks for 4000 completion tokens, and gets high verbosity exactly when the model name splits as before + "gpt-5" + after |
| Session.EmbeddedNameGetsHighVerbosity | burn-tokens.js:187-190 | "gpt-5" occurring anywhere in the model name, not only at its start, raises verbosity |
| Session.TextModelsGetHighVerbosity | burn-tokens.js:187-190 | every catalogued text model is sent with high verbosity |
| Session.ImageChargeMatchesRequest | burn-tokens.js:218-232 | an answered image iteration is charged the table price of exactly the model, size and quality its request was sent with |
| Session.Attempt | burn-tokens.js:196-277 | an iteration fails iff its reply failed; a success uses the iteration's model, a text model on a text iteration and an image model on an image iteration; a single-model run uses the selected model; a text success records the reply's total tokens and the text-price estimate of its usage; an image success is charged the 1024x1024 high-quality image price, 0.19 |
| Session.TextRequestsArePriced | burn-tokens.js:196-204 | every text request goes to a model in the price table, so an answer with prompt tokens costs more than 0 |
| Session.Account | burn-tokens.js:197-263 | accounting one outcome moves exactly one of the success and failure counters, the success counter exactly on a success; the text counter moves only on a text success; the token total grows by the outcome's tokens (none for an image or a failure) and the cost total by the outcome's cost (none for a failure) |
| Session.TotalsAreSums | burn-tokens.js:199-233 | after the outcomes, the token total is the sum of the text successes' tokens and the cost total is the sum of all successes' costs, each sum taken from the front independently of the fold |
| Session.Tally | burn-tokens.js:101-107 | after the outcomes, successes + failures = their number and text + image = successes; with no success, the token and cost totals are 0 |
| Session.FailuresAreCounted | burn-tokens.js:262-263 | the failure counter equals the number of failed outcomes |
| Session.RunSession | burn-tokens.js:279-289 | the loop computes the fold of all iterations' outcomes, its success and failure counts add up to N, and it pauses max(N - 1, 0) times |
| Session.TotalsAreMonotone | burn-tokens.js:199-235 | the cost and token totals of any prefix of the session are at most those of the whole session |
| Session.CostCoversImages | burn-tokens.js:232-235 | the cost total is at least 0.19 times the image count |
| Session.FailuresMatchReplies | burn-tokens.js:245-277 | the failure counter equals the number of failed replies, in every mode |
| Session.TextCountMatchesKinds | burn-tokens.js:245-260 | when every request is answered, the text and image counters after n iterations equal the numbers of text and image iterations among 1..n |
| Session.MixedSessionFollowsSchedule | burn-tokens.js:144-156 | in a fully answered mixed run, the text counter follows the closed-form period-ten schedule and the rest are images |
| Session.AlternatingFailuresScenario | burn-tokens.js:279-289 | six iterations that fail on odd iterations and succeed on even ones end with 3 failures and 3 successes |

## Left out

- The OpenAI client, `dotenv` and the API key (burn-tokens.js:3-8, 192, 221). These are network I/O and are replaced by the abstract `Reply`. The image response's content (its URL) is not modelled. The usage of an answered image request is ignored, as the script ignores it.
- Argument parsing with `parseInt`, `split` and `Number` (burn-tokens.js:22-27, 33-34). `textRatio` is a `nat`. NaN, negative and fractional ratios are not modelled, and the iteration count is the length of the reply sequence.
- Inherited object properties. A `--model=` value such as `toString` finds a property that every JavaScript object inherits from its prototype. The source then leaves mixed mode with a non-string model. The catalogs here are plain maps, so such names are treated as unknown.
- Console output, `toFixed`, `toLocaleString`, the banner, the model label and the summary (burn-tokens.js:36-48, 206-212, 237-242, 264-275, 291-315). These are presentation only; the 429 rate-limit hint is among them.
- Time, the `setTimeout` pause and the SIGINT handler (burn-tokens.js:172-195, 280, 287, 319-324). Pauses are counted, not performed. On interruption the handler prints only the token and cost totals so far (the `Tally` of the finished prefix) and exits with status 0; the other counters are not reported.
- Floating-point rounding of costs. Costs are exact rationals.
- `generateLongPrompt` (burn-tokens.js:51-67). It is constant text apart from the iteration number and affects no decision.
- Verbose-logging exceptions after the counters are updated (burn-tokens.js:211, 241). If one is thrown, the iteration counts as both a success and a failure. The model decides each outcome before accounting, so its invariants assume no such exception.
- ImagePrompts.GenerateImagePrompt: its contract states the theme prefix and the length bound, not the exact theme-comma-style concatenation, which is the function's definition.
