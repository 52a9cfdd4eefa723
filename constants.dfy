/** The static catalog (constants.tsx): the selectable styles and aspect
    ratios, as constant sequences, and the facts about them the rest of the
    model relies on. */
module Constants {
  import opened Types

  /** The style list in display order; the first entry is the default.
      Each non-empty suffix is written as ", " + rest: the same text, split
      so that the verifier can see how it begins. */
  const AiStyles: seq<AIStyle> := [
    AIStyle("none", "Tanpa Gaya", "https://picsum.photos/seed/style0/200", ""),
    AIStyle("anime", "Anime", "https://picsum.photos/seed/anime/200",
      ", " + "style of modern high quality anime, vibrant colors, detailed eyes, Makoto Shinkai style"),
    AIStyle("realistic", "Realistik", "https://picsum.photos/seed/realistic/200",
      ", " + "hyper-realistic, 8k resolution, highly detailed, cinematic lighting, photography, professional shot"),
    AIStyle("cyberpunk", "Cyberpunk", "https://picsum.photos/seed/cyber/200",
      ", " + "cyberpunk aesthetic, neon lights, futuristic city, night, glowing elements, dark atmosphere"),
    AIStyle("oil-painting", "Lukisan Cat Minyak", "https://picsum.photos/seed/oil/200",
      ", " + "oil painting style, visible brush strokes, rich textures, classic masterpiece aesthetic"),
    AIStyle("pixel-art", "Pixel Art", "https://picsum.photos/seed/pixel/200",
      ", " + "16-bit pixel art, retro gaming aesthetic, clean pixel lines"),
    AIStyle("3d-render", "3D Render", "https://picsum.photos/seed/3d/200",
      ", " + "3D isometric render, Unreal Engine 5, Octane render, soft lighting, cute stylized character"),
    AIStyle("sketch", "Sketsa", "https://picsum.photos/seed/sketch/200",
      ", " + "charcoal pencil sketch, hand drawn, artistic, white background, detailed line art")
  ]

  /** One button of the aspect-ratio picker. */
  datatype RatioOption = RatioOption(labelText: string, value: AspectRatio)

  /** The aspect-ratio list, in display order. */
  const AspectRatios: seq<RatioOption> := [
    RatioOption("1:1", Square),
    RatioOption("3:4", Portrait3x4),
    RatioOption("4:3", Landscape4x3),
    RatioOption("9:16", Portrait9x16),
    RatioOption("16:9", Landscape16x9)
  ]

  /** The values the picker offers. */
  function RatioValues(options: seq<RatioOption>): set<AspectRatio> {
    set o | o in options :: o.value
  }

  /** Eight styles with distinct ids; the first, "none", adds nothing to the
      prompt, and every other suffix starts a new clause with ", ". */
  lemma StyleCatalog()
    ensures |AiStyles| == 8
    ensures AiStyles[0].id == "none" && AiStyles[0].promptSuffix == ""
    ensures forall i, j :: 0 <= i < j < |AiStyles| ==> AiStyles[i].id != AiStyles[j].id
    ensures forall i :: 1 <= i < |AiStyles| ==> |AiStyles[i].promptSuffix| > 2 && AiStyles[i].promptSuffix[..2] == ", "
  {
  }

  /** Five options, each labelled by its own literal, no value twice. */
  lemma RatioCatalog()
    ensures |AspectRatios| == 5
    ensures forall i :: 0 <= i < |AspectRatios| ==> AspectRatios[i].labelText == AspectRatios[i].value.Text()
    ensures forall i, j :: 0 <= i < j < |AspectRatios| ==> AspectRatios[i].value != AspectRatios[j].value
  {
  }

  /** The picker offers every member of the union, so its values are
      exactly the union's members. */
  lemma EveryRatioOffered(r: AspectRatio)
    ensures r in RatioValues(AspectRatios)
  {
    match r
    case Square => assert AspectRatios[0] in AspectRatios;
    case Portrait3x4 => assert AspectRatios[1] in AspectRatios;
    case Landscape4x3 => assert AspectRatios[2] in AspectRatios;
    case Portrait9x16 => assert AspectRatios[3] in AspectRatios;
    case Landscape16x9 => assert AspectRatios[4] in AspectRatios;
  }

  /** Distinct ratios have distinct literals, so a label identifies its
      value. */
  lemma RatioTextInjective(a: AspectRatio, b: AspectRatio)
    ensures a.Text() == b.Text() ==> a == b
  {
  }
}
