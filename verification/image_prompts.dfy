/** Image prompt selection (burn-tokens.js:70-99): a theme and a style, picked by
    the iteration number modulo the size of each list. */
module ImagePrompts {

  const Themes: seq<string> := [
    "A futuristic cityscape with flying cars and neon lights",
    "An abstract representation of artificial intelligence and neural networks",
    "A serene landscape with mountains, lakes, and colorful sunset",
    "A cyberpunk street scene with holograms and robots",
    "An underwater scene with bioluminescent creatures",
    "A fantasy castle floating in the clouds",
    "A surreal dreamscape with impossible geometry",
    "A steampunk laboratory filled with brass machinery",
    "A cosmic scene with nebulas, galaxies and stars",
    "A post-apocalyptic cityscape being reclaimed by nature"
  ]

  const Styles: seq<string> := [
    "digital art, highly detailed, 4k",
    "oil painting, impressionist style",
    "photorealistic, ultra HD",
    "concept art, cinematic lighting",
    "watercolor, ethereal and dreamy",
    "vector art, vibrant colors",
    "pencil sketch, detailed shading",
    "3D render, ray tracing"
  ]

  /** The (theme, style) index pair the iteration selects. */
  function PromptIndices(iteration: nat): (r: (nat, nat))
    ensures r.0 < |Themes| && r.1 < |Styles|
    ensures r.0 == iteration % 10 && r.1 == iteration % 8
  {
    (iteration % |Themes|, iteration % |Styles|)
  }

  /** The image prompt of the iteration: its theme, a comma, then its style. */
  function GenerateImagePrompt(iteration: nat): (prompt: string)
    ensures Themes[PromptIndices(iteration).0] <= prompt
    ensures |prompt| > |Themes[PromptIndices(iteration).0]| + |Styles[PromptIndices(iteration).1]|
  {
    var (t, s) := PromptIndices(iteration);
    Themes[t] + ", " + Styles[s]
  }

  /** Two iterations select the same theme and style exactly when they agree
      modulo 40: every window of forty consecutive iterations sees forty
      distinct combinations. */
  lemma IndicesRepeatExactlyEvery40(i: nat, j: nat)
    ensures PromptIndices(i) == PromptIndices(j) <==> i % 40 == j % 40
  {
    var a, b := i % 40, j % 40;
    ReduceModulo(i);
    ReduceModulo(j);
    if a % 10 == b % 10 && a % 8 == b % 8 {
      ResiduesDetermine(a, b);
    }
  }

  /** Reducing modulo 40 keeps the residues modulo 10 and modulo 8. */
  lemma {:induction false} ReduceModulo(i: nat)
    ensures i % 10 == (i % 40) % 10
    ensures i % 8 == (i % 40) % 8
    decreases i
  {
    if i >= 40 {
      ReduceModulo(i - 40);
      ShiftBy40Mod10(i - 40);
      ShiftBy40Mod8(i - 40);
      ShiftBy40Mod40(i - 40);
    }
  }

  lemma ShiftBy40Mod10(x: nat) ensures (x + 40) % 10 == x % 10 {}
  lemma ShiftBy40Mod8(x: nat) ensures (x + 40) % 8 == x % 8 {}
  lemma ShiftBy40Mod40(x: nat) ensures (x + 40) % 40 == x % 40 {}

  /** Below 40 the pair of residues modulo 10 and 8 determines the number. */
  lemma ResiduesDetermine(a: nat, b: nat)
    requires a < 40 && b < 40
    requires a % 10 == b % 10 && a % 8 == b % 8
    ensures a == b
  {
    var r := a % 8;
    assert a == 8 * (a / 8) + r && b == 8 * (b / 8) + r;
    assert a / 8 < 5 && b / 8 < 5;
  }

  /** The prompt sequence repeats with period 40, the least common multiple of
      the two list lengths. */
  lemma PromptIsPeriodic(iteration: nat)
    ensures GenerateImagePrompt(iteration + 40) == GenerateImagePrompt(iteration)
  {
    ShiftBy40Mod10(iteration);
    ShiftBy40Mod8(iteration);
  }
}
