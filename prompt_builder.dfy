/** The prompt sent to the model: six instruction lines, an optional line
    of custom instructions, then the attachment's data, one field per line,
    joined with line feeds. */
module PromptBuilder {
  import opened Values
  import opened Text

  /** The attachment record `buildContext` assembles from WordPress. */
  datatype Context = Context(
    attachmentId: int,
    title: Value,
    caption: Value,
    description: Value,
    existingAlt: Value,
    filename: Value,
    shortFilename: Value,
    parent: Value,      // null, or the parent post's `type`, `title`, `excerpt`, ...
    mimeType: Value,
    url: Value,
    filePath: Value)

  const DefaultTone: string := "neutral and descriptive"
  const DefaultMaxWords: int := 20

  const Intro: string :=
    "You are an assistant that writes concise, accessible alt text that follows the W3C alt decision tree."
  const Decorative: string :=
    "If the image appears purely decorative or conveys no meaningful info, return an empty string."
  /** The single-quoted source literal holds the six characters backslash, `u`, `2`,
      `0`, `1`, `9`, not an apostrophe. */
  const LengthRulePrefix: string :=
    "Otherwise, describe the image\\u2019s purpose in page context in one sentence, no more than "
  const VerbatimRule: string :=
    "If on-image text is visible, copy the exact words verbatim into the alt text (including headings, labels, CTAs, and prominent body copy). If multiple fragments are visible, include them all; if none, state that no on-image text was detected."
  const ConciseRule: string :=
    "If on-image text is visible and relevant, include the key wording concisely in the alt text."
  const NoPreamble: string :=
    "Do not start with \"Image of\" or similar, and do not repeat file names, URLs, or camera metadata."
  const CustomPrefix: string := "Custom instructions: "
  const NoParent: string := "No related post context was provided."
  const Closing: string := "If an image is provided, use it to improve accuracy."

  function LengthRule(maxWords: int): string {
    LengthRulePrefix + IntToDecimal(maxWords) + " words."
  }

  function ToneRule(tone: string): string {
    "Use a " + tone + " tone."
  }

  /** `$config['prompt']['tone'] ?? 'neutral and descriptive'`. */
  function Tone(config: Value): string {
    ToStr(Coalesce(Get(Field(config, "prompt"), "tone"), Str(DefaultTone)))
  }

  /** `(int) ($config['prompt']['max_words'] ?? 20)`. */
  function MaxWords(config: Value): int {
    ToInt(Coalesce(Get(Field(config, "prompt"), "max_words"), Int(DefaultMaxWords)))
  }

  /** A field of the attachment, or `N/A` when it is empty. */
  function OrNA(v: Value): (r: string)
    ensures Truthy(v) ==> r == ToStr(v)
    ensures !Truthy(v) ==> r == "N/A"
  {
    if Truthy(v) then ToStr(v) else "N/A"
  }

  /** The related-content line. */
  function ParentText(parent: Value): string {
    if Truthy(parent) then
      "Related content (" + ToStr(Field(parent, "type")) + "): " + ToStr(Field(parent, "title")) +
      ". Summary: " + ToStr(Field(parent, "excerpt")) + "."
    else NoParent
  }

  /** The instruction lines before `array_filter`: the fixed six, with the
      on-image-text rule chosen by `forceVerbatim`, and the custom line when
      `custom !== ''`. */
  function InstructionLines(config: Value, forceVerbatim: Value, custom: Value): seq<string> {
    var lines := [Intro, Decorative, LengthRule(MaxWords(config)),
                  if Truthy(forceVerbatim) then VerbatimRule else ConciseRule,
                  NoPreamble, ToneRule(Tone(config))];
    if custom != Str("") then lines + [CustomPrefix + ToStr(custom)] else lines
  }

  /** `array_filter($lines)`: drops the empty strings and `"0"`. */
  function FilterTruthy(xs: seq<string>): (r: seq<string>)
    ensures |r| <= |xs|
    ensures forall i :: 0 <= i < |r| ==> Truthy(Str(r[i]))
  {
    if xs == [] then []
    else if Truthy(Str(xs[0])) then [xs[0]] + FilterTruthy(xs[1..])
    else FilterTruthy(xs[1..])
  }

  /** Lines that are all non-empty pass the filter untouched. */
  lemma {:induction false} FilterKeepsTruthy(xs: seq<string>)
    requires forall i :: 0 <= i < |xs| ==> Truthy(Str(xs[i]))
    ensures FilterTruthy(xs) == xs
  {
    if xs != [] {
      FilterKeepsTruthy(xs[1..]);
      assert [xs[0]] + xs[1..] == xs;
    }
  }

  /** The ten lines describing the attachment. */
  function AttachmentLines(ctx: Context): seq<string> {
    ["", "Attachment data:",
     "Title: " + OrNA(ctx.title),
     "Caption: " + OrNA(ctx.caption),
     "Description: " + OrNA(ctx.description),
     "Existing alt (if any): " + OrNA(ctx.existingAlt),
     "File name: " + OrNA(ctx.filename),
     "Mime type: " + OrNA(ctx.mimeType),
     ParentText(ctx.parent),
     Closing]
  }

  function Lines(ctx: Context, config: Value, forceVerbatim: Value, custom: Value): seq<string> {
    FilterTruthy(InstructionLines(config, forceVerbatim, custom)) + AttachmentLines(ctx)
  }

  /** `build($context, $config)`, with the on-image-text flag and the
      custom instructions read from `config['prompt']` as the settings
      preview reads them. */
  function Build(ctx: Context, config: Value): string {
    var prompt := Field(config, "prompt");
    Join(Lines(ctx, config, Field(prompt, "force_verbatim_text"),
               Coalesce(Get(prompt, "custom_instructions"), Str(""))), "\n")
  }

  /** `build` as written: `$forceVerbatim` and `$custom` are never assigned,
      so both read as null whatever the configuration says. */
  function BuildAsWritten(ctx: Context, config: Value): string {
    Join(Lines(ctx, config, Null, Null), "\n")
  }

  // ---------------------------------------------------------------------------

  /** The line sequence: the six instructions in their order, the custom
      line exactly when `custom !== ''`, then the blank line, the heading,
      the six fields (`N/A` when empty), the related-content line, and the
      closing hint last. Nothing is filtered out. */
  lemma LinesShape(ctx: Context, config: Value, forceVerbatim: Value, custom: Value)
    ensures var l := Lines(ctx, config, forceVerbatim, custom);
            var n := if custom != Str("") then 7 else 6;
            && |l| == n + 10
            && l[0] == Intro && l[1] == Decorative
            && l[2] == LengthRule(MaxWords(config))
            && l[3] == (if Truthy(forceVerbatim) then VerbatimRule else ConciseRule)
            && l[4] == NoPreamble && l[5] == ToneRule(Tone(config))
            && (n == 7 ==> l[6] == CustomPrefix + ToStr(custom))
            && l[n] == "" && l[n + 1] == "Attachment data:"
            && l[n + 2] == "Title: " + OrNA(ctx.title)
            && l[n + 3] == "Caption: " + OrNA(ctx.caption)
            && l[n + 4] == "Description: " + OrNA(ctx.description)
            && l[n + 5] == "Existing alt (if any): " + OrNA(ctx.existingAlt)
            && l[n + 6] == "File name: " + OrNA(ctx.filename)
            && l[n + 7] == "Mime type: " + OrNA(ctx.mimeType)
            && l[n + 8] == ParentText(ctx.parent)
            && l[|l| - 1] == Closing
  {
    InstructionPart(ctx, config, forceVerbatim, custom);
    AttachmentPart(ctx, config, forceVerbatim, custom);
  }

  /** The instruction half of the line sequence. */
  lemma InstructionPart(ctx: Context, config: Value, forceVerbatim: Value, custom: Value)
    ensures var l := Lines(ctx, config, forceVerbatim, custom);
            var n := if custom != Str("") then 7 else 6;
            && |l| == n + 10
            && l[0] == Intro && l[1] == Decorative
            && l[2] == LengthRule(MaxWords(config))
            && l[3] == (if Truthy(forceVerbatim) then VerbatimRule else ConciseRule)
            && l[4] == NoPreamble && l[5] == ToneRule(Tone(config))
            && (n == 7 ==> l[6] == CustomPrefix + ToStr(custom))
  {
    var ins := InstructionLines(config, forceVerbatim, custom);
    InstructionsPassFilter(config, forceVerbatim, custom);
    var att := AttachmentLines(ctx);
    assert |ins| == if custom != Str("") then 7 else 6;
    ConcatAt(ins, att);
  }

  /** The attachment half of the line sequence. */
  lemma AttachmentPart(ctx: Context, config: Value, forceVerbatim: Value, custom: Value)
    ensures var l := Lines(ctx, config, forceVerbatim, custom);
            var n := if custom != Str("") then 7 else 6;
            && |l| == n + 10
            && l[n] == "" && l[n + 1] == "Attachment data:"
            && l[n + 2] == "Title: " + OrNA(ctx.title)
            && l[n + 3] == "Caption: " + OrNA(ctx.caption)
            && l[n + 4] == "Description: " + OrNA(ctx.description)
            && l[n + 5] == "Existing alt (if any): " + OrNA(ctx.existingAlt)
            && l[n + 6] == "File name: " + OrNA(ctx.filename)
            && l[n + 7] == "Mime type: " + OrNA(ctx.mimeType)
            && l[n + 8] == ParentText(ctx.parent)
            && l[|l| - 1] == Closing
  {
    var ins := InstructionLines(config, forceVerbatim, custom);
    InstructionsPassFilter(config, forceVerbatim, custom);
    assert |ins| == if custom != Str("") then 7 else 6;
    AttachmentAt(ins, ctx);
  }

  /** The attachment lines after any run of instructions. */
  lemma AttachmentAt(ins: seq<string>, ctx: Context)
    ensures var l := ins + AttachmentLines(ctx);
            var n := |ins|;
            && |l| == n + 10
            && l[n] == "" && l[n + 1] == "Attachment data:"
            && l[n + 2] == "Title: " + OrNA(ctx.title)
            && l[n + 3] == "Caption: " + OrNA(ctx.caption)
            && l[n + 4] == "Description: " + OrNA(ctx.description)
            && l[n + 5] == "Existing alt (if any): " + OrNA(ctx.existingAlt)
            && l[n + 6] == "File name: " + OrNA(ctx.filename)
            && l[n + 7] == "Mime type: " + OrNA(ctx.mimeType)
            && l[n + 8] == ParentText(ctx.parent)
            && l[|l| - 1] == Closing
  {
    ConcatAt(ins, AttachmentLines(ctx));
  }

  /** Where the lines of two runs sit once they are concatenated. */
  lemma ConcatAt(a: seq<string>, b: seq<string>)
    ensures |a + b| == |a| + |b|
    ensures forall i :: 0 <= i < |a| ==> (a + b)[i] == a[i]
    ensures forall i :: 0 <= i < |b| ==> (a + b)[|a| + i] == b[i]
  {
  }

  /** A string of two or more characters is truthy. */
  lemma LongIsTruthy(s: string)
    requires |s| >= 2
    ensures Truthy(Str(s))
  {
    assert s != "" && s != "0";
  }

  /** Every instruction line is non-empty, so `array_filter` keeps them all. */
  lemma InstructionsPassFilter(config: Value, forceVerbatim: Value, custom: Value)
    ensures FilterTruthy(InstructionLines(config, forceVerbatim, custom)) == InstructionLines(config, forceVerbatim, custom)
  {
    var ins := InstructionLines(config, forceVerbatim, custom);
    assert |ins[0]| >= 2 && |ins[1]| >= 2 && |ins[3]| >= 2 && |ins[4]| >= 2;
    assert |ins[2]| >= |LengthRulePrefix| >= 2;
    assert |ins[5]| >= 6;
    assert |ins| == 7 ==> |ins[6]| >= |CustomPrefix| >= 2;
    LongLinesPass(ins);
  }

  /** Lines of two or more characters all pass the filter. */
  lemma LongLinesPass(xs: seq<string>)
    requires forall i :: 0 <= i < |xs| ==> |xs[i]| >= 2
    ensures FilterTruthy(xs) == xs
  {
    forall i | 0 <= i < |xs| ensures Truthy(Str(xs[i])) {
      LongIsTruthy(xs[i]);
    }
    FilterKeepsTruthy(xs);
  }

  /** The prompt reads back, line by line, as that sequence when no line
      holds a line feed of its own. */
  lemma BuildSplitsIntoLines(ctx: Context, config: Value)
    requires var prompt := Field(config, "prompt");
             var l := Lines(ctx, config, Field(prompt, "force_verbatim_text"),
                            Coalesce(Get(prompt, "custom_instructions"), Str("")));
             forall i :: 0 <= i < |l| ==> '\n' !in l[i]
    ensures var prompt := Field(config, "prompt");
            Split(Build(ctx, config), '\n') ==
              Lines(ctx, config, Field(prompt, "force_verbatim_text"),
                    Coalesce(Get(prompt, "custom_instructions"), Str("")))
  {
    var prompt := Field(config, "prompt");
    LinesShape(ctx, config, Field(prompt, "force_verbatim_text"),
               Coalesce(Get(prompt, "custom_instructions"), Str("")));
    SplitJoin(Lines(ctx, config, Field(prompt, "force_verbatim_text"),
                    Coalesce(Get(prompt, "custom_instructions"), Str(""))), '\n');
  }

  /** The length rule carries the word limit as a number that `(int)` reads
      back. */
  lemma LengthRuleCarriesLimit(config: Value)
    ensures var rule := LengthRule(MaxWords(config));
            var digits := rule[|LengthRulePrefix|..|rule| - |" words."|];
            ToInt(Str(digits)) == MaxWords(config)
  {
    var rule := LengthRule(MaxWords(config));
    assert rule[|LengthRulePrefix|..|rule| - |" words."|] == IntToDecimal(MaxWords(config));
    IntRoundTrip(MaxWords(config));
  }

  /** As written, the prompt ignores both settings: the concise rule is
      always used and an empty `Custom instructions: ` line is always
      added. */
  lemma AsWrittenIgnoresSettings(ctx: Context, config: Value)
    ensures var l := Lines(ctx, config, Null, Null);
            |l| == 17 && l[3] == ConciseRule && l[6] == CustomPrefix
  {
    LinesShape(ctx, config, Null, Null);
  }

  /** A configuration with custom instructions `X`, which the prompt as
      written drops: its custom line ends right after the prefix, where the
      corrected prompt has the `X`. */
  lemma AsWrittenDropsCustom(ctx: Context)
    ensures var config := Obj([("prompt", Obj([("custom_instructions", Str("X"))]))]);
            BuildAsWritten(ctx, config) != Build(ctx, config)
  {
    var config := Obj([("prompt", Obj([("custom_instructions", Str("X"))]))]);
    var prompt := Field(config, "prompt");
    assert Coalesce(Get(prompt, "custom_instructions"), Str("")) == Str("X");
    assert Field(prompt, "force_verbatim_text") == Null;
    InstructionsPassFilter(config, Null, Str("X"));
    InstructionsPassFilter(config, Null, Null);
    var head := [Intro, Decorative, LengthRule(MaxWords(config)), ConciseRule, NoPreamble, ToneRule(Tone(config))];
    var att := AttachmentLines(ctx);
    assert Lines(ctx, config, Null, Str("X")) == head + [CustomPrefix + "X"] + att;
    assert CustomPrefix + ToStr(Null) == CustomPrefix;
    assert Lines(ctx, config, Null, Null) == head + [CustomPrefix] + att;
    LineMatters(head, att, CustomPrefix, 'X');
  }

  /** Two prompts whose only difference is one line, the second being the
      first with one more character that is not a line feed, differ. */
  lemma LineMatters(head: seq<string>, att: seq<string>, p: string, c: char)
    requires head != [] && att != [] && c != '\n'
    ensures Join(head + [p] + att, "\n") != Join(head + [p + [c]] + att, "\n")
  {
    JoinAround(head, p, att);
    JoinAround(head, p + [c], att);
    var a := Join(head, "\n") + "\n";
    var short := a + p + "\n" + Join(att, "\n");
    var long := a + (p + [c]) + "\n" + Join(att, "\n");
    assert short[|a| + |p|] == '\n';
    assert long[|a| + |p|] == c;
  }

  /** A prompt around one line: the lines before it, the line, the lines
      after it, with a line feed between each. */
  lemma JoinAround(head: seq<string>, line: string, att: seq<string>)
    requires head != [] && att != []
    ensures Join(head + [line] + att, "\n") == Join(head, "\n") + "\n" + line + "\n" + Join(att, "\n")
  {
    JoinAppend(head, [line] + att, "\n");
    JoinAppend([line], att, "\n");
    assert head + [line] + att == head + ([line] + att);
  }

  /** The corrected prompt follows the settings: the verbatim rule exactly
      when `force_verbatim_text` is truthy, and the custom line exactly when
      the custom instructions are set and not `''`. */
  lemma BuildFollowsSettings(ctx: Context, config: Value)
    ensures var prompt := Field(config, "prompt");
            var custom := Coalesce(Get(prompt, "custom_instructions"), Str(""));
            var l := Lines(ctx, config, Field(prompt, "force_verbatim_text"), custom);
            && (l[3] == VerbatimRule <==> Truthy(Field(prompt, "force_verbatim_text")))
            && (|l| == 17 <==> custom != Str(""))
            && (|l| == 17 ==> l[6] == CustomPrefix + ToStr(custom))
  {
    var prompt := Field(config, "prompt");
    var custom := Coalesce(Get(prompt, "custom_instructions"), Str(""));
    LinesShape(ctx, config, Field(prompt, "force_verbatim_text"), custom);
    assert |VerbatimRule| != |ConciseRule|;
  }
}
