/** The settings screen's logic: what a submitted form is saved as, how the
    saved record is read back over the defaults, and the instruction preview
    it shows. The option store is a field; the form is the posted array;
    WordPress's `sanitize_textarea_field` and `sanitize_text_field` are
    function parameters. */
module SettingsPage {
  import opened Values
  import opened Text
  import PromptBuilder

  const DefaultTone: string := "neutral and descriptive"
  const DefaultMaxWords: int := 20
  const MinWords: int := 5
  const MaxWordsLimit: int := 60

  /** `defaultSettings()`. */
  function DefaultSettings(): Fields {
    [("custom_instructions", Str("")),
     ("tone", Str(DefaultTone)),
     ("max_words", Int(DefaultMaxWords)),
     ("force_verbatim_text", Bool(false)),
     ("vision_enabled", Bool(false)),
     ("vision_mode", Str("auto"))]
  }

  /** The keys of a saved settings record, in order. */
  function SettingKeys(): seq<string> {
    ["custom_instructions", "tone", "max_words", "force_verbatim_text", "vision_enabled", "vision_mode"]
  }

  /** `max(5, min(60, $n))`. */
  function Clamp(n: int): (r: int)
    ensures MinWords <= r <= MaxWordsLimit
    ensures MinWords <= n <= MaxWordsLimit ==> r == n
    ensures n < MinWords ==> r == MinWords
    ensures n > MaxWordsLimit ==> r == MaxWordsLimit
  {
    if n < MinWords then MinWords else if n > MaxWordsLimit then MaxWordsLimit else n
  }

  /** The submitted word limit: `(int) $_POST['max_words']` when it is set,
      20 otherwise, clamped to 5..60. */
  function PostedMaxWords(post: Fields): (m: int)
    ensures MinWords <= m <= MaxWordsLimit
    ensures !Isset(post, "max_words") ==> m == DefaultMaxWords
    ensures Isset(post, "max_words") && MinWords <= ToInt(Lookup(post, "max_words").value) <= MaxWordsLimit ==>
              m == ToInt(Lookup(post, "max_words").value)
  {
    Clamp(if Isset(post, "max_words") then ToInt(Lookup(post, "max_words").value) else DefaultMaxWords)
  }

  predicate IsVisionMode(v: Value) {
    v == Str("auto") || v == Str("url") || v == Str("base64")
  }

  /** The submitted vision mode. The whitelist test looks at
      `$_POST['vision_mode'] ?? 'auto'` but the stored value is
      `$_POST['vision_mode']` itself, so a form without the field stores
      null rather than `auto`. */
  function PostedVisionMode(post: Fields): (m: Value)
    ensures IsVisionMode(m) || m == Null
    ensures m == Null <==> !Isset(post, "vision_mode")
    ensures Isset(post, "vision_mode") && IsVisionMode(Lookup(post, "vision_mode").value) ==>
              m == Lookup(post, "vision_mode").value
    ensures Isset(post, "vision_mode") && !IsVisionMode(Lookup(post, "vision_mode").value) ==> m == Str("auto")
  {
    if IsVisionMode(Coalesce(Lookup(post, "vision_mode"), Str("auto"))) then Lookup(post, "vision_mode").GetOr(Null)
    else Str("auto")
  }

  /** `!empty($_POST[$key])`. */
  function Checked(post: Fields, key: string): bool {
    Truthy(Lookup(post, key).GetOr(Null))
  }

  /** The record `handleSave` writes for a submitted form. */
  function Sanitize(post: Fields, textarea: Value -> string, text: Value -> string): (s: Fields)
    ensures |s| == 6 && forall i :: 0 <= i < 6 ==> s[i].0 == SettingKeys()[i]
    ensures Lookup(s, "custom_instructions") == Some(Str(textarea(Coalesce(Lookup(post, "custom_instructions"), Str("")))))
    ensures Lookup(s, "tone") == Some(Str(text(Coalesce(Lookup(post, "tone"), Str(DefaultTone)))))
    ensures Lookup(s, "max_words") == Some(Int(PostedMaxWords(post)))
    ensures Lookup(s, "force_verbatim_text") == Some(Bool(Checked(post, "force_verbatim_text")))
    ensures Lookup(s, "vision_enabled") == Some(Bool(Checked(post, "vision_enabled")))
    ensures Lookup(s, "vision_mode") == Some(PostedVisionMode(post))
  {
    var s := [("custom_instructions", Str(textarea(Coalesce(Lookup(post, "custom_instructions"), Str(""))))),
              ("tone", Str(text(Coalesce(Lookup(post, "tone"), Str(DefaultTone))))),
              ("max_words", Int(PostedMaxWords(post))),
              ("force_verbatim_text", Bool(Checked(post, "force_verbatim_text"))),
              ("vision_enabled", Bool(Checked(post, "vision_enabled"))),
              ("vision_mode", PostedVisionMode(post))];
    assert forall i :: 0 <= i < 6 ==> s[i].0 == SettingKeys()[i];
    SixLookups(s);
    s
  }

  /** Each of the six keys of a settings record reads as its entry. */
  lemma SixLookups(s: Fields)
    requires |s| == 6 && forall i :: 0 <= i < 6 ==> s[i].0 == SettingKeys()[i]
    ensures Lookup(s, "custom_instructions") == Some(s[0].1)
    ensures Lookup(s, "tone") == Some(s[1].1)
    ensures Lookup(s, "max_words") == Some(s[2].1)
    ensures Lookup(s, "force_verbatim_text") == Some(s[3].1)
    ensures Lookup(s, "vision_enabled") == Some(s[4].1)
    ensures Lookup(s, "vision_mode") == Some(s[5].1)
  {
    KeyAt(s, 0); KeyAt(s, 1); KeyAt(s, 2); KeyAt(s, 3); KeyAt(s, 4); KeyAt(s, 5);
  }

  /** The `i`-th setting key of a settings record reads as its `i`-th entry. */
  lemma KeyAt(s: Fields, i: nat)
    requires |s| == 6 && forall j :: 0 <= j < 6 ==> s[j].0 == SettingKeys()[j]
    requires i < 6
    ensures Lookup(s, SettingKeys()[i]) == Some(s[i].1)
  {
    SettingKeysDistinct();
    LookupAt(s, i);
  }

  /** The six setting keys are different from one another. */
  lemma SettingKeysDistinct()
    ensures forall i, j :: 0 <= i < j < 6 ==> SettingKeys()[i] != SettingKeys()[j]
  {
    var ks := SettingKeys();
    assert |ks[0]| == 19 && |ks[1]| == 4 && |ks[2]| == 9 && |ks[3]| == 19 && |ks[4]| == 14 && |ks[5]| == 11;
    assert ks[0][0] != ks[3][0];
  }

  /** A record with the six setting keys has no key twice. */
  lemma SettingKeysUnique(s: Fields)
    requires |s| == 6 && forall i :: 0 <= i < 6 ==> s[i].0 == SettingKeys()[i]
    ensures UniqueKeys(s)
  {
    SettingKeysDistinct();
  }

  /** The defaults carry the six keys in the same order. */
  lemma DefaultKeys()
    ensures |DefaultSettings()| == 6 && forall i :: 0 <= i < 6 ==> DefaultSettings()[i].0 == SettingKeys()[i]
  {
  }

  /** `getSettings()` for the stored option (`None` when there is none):
      the saved entries over the defaults. */
  function Settings(saved: Option<Value>): Fields {
    Merge(DefaultSettings(), FieldsOf(saved))
  }

  /** Every key reads as saved when the record has it and as its default
      otherwise, so each of the six settings is always present. */
  lemma SettingsLookup(saved: Option<Value>, k: string)
    requires UniqueKeys(FieldsOf(saved))
    ensures Lookup(Settings(saved), k) ==
              if HasKey(FieldsOf(saved), k) then Lookup(FieldsOf(saved), k) else Lookup(DefaultSettings(), k)
    ensures k in SettingKeys() ==> HasKey(Settings(saved), k)
  {
    MergeLookup(DefaultSettings(), FieldsOf(saved), k);
    if k in SettingKeys() {
      var i :| 0 <= i < 6 && SettingKeys()[i] == k;
      DefaultKeys();
      LookupHas(DefaultSettings(), i);
    }
  }

  lemma LookupHas(fs: Fields, i: nat)
    requires i < |fs|
    ensures HasKey(fs, fs[i].0)
  {
  }

  /** A saved form reads back exactly as it was sanitized. */
  lemma SaveThenRead(post: Fields, textarea: Value -> string, text: Value -> string, k: string)
    ensures var s := Sanitize(post, textarea, text);
            Lookup(Settings(Some(Obj(s))), k) == Lookup(s, k)
  {
    var s := Sanitize(post, textarea, text);
    SettingKeysUnique(s);
    DefaultKeys();
    SameKeysMerge(DefaultSettings(), s, k);
  }

  /** Merging a record over one with the same keys in the same order reads
      as the record. */
  lemma SameKeysMerge(base: Fields, s: Fields, k: string)
    requires UniqueKeys(s) && |base| == |s| && forall i :: 0 <= i < |s| ==> base[i].0 == s[i].0
    ensures Lookup(Merge(base, s), k) == Lookup(s, k)
  {
    MergeLookup(base, s, k);
    if !HasKey(s, k) {
      forall i | 0 <= i < |base| ensures base[i].0 != k {
        LookupHas(s, i);
      }
    }
  }

  /** The stored option of the settings page. */
  class OptionStore {
    var saved: Option<Value>

    constructor ()
      ensures saved == None
    {
      saved := None;
    }

    /** `getSettings()`. */
    function GetSettings(): Fields
      reads this
    {
      Settings(saved)
    }

    /** `handleSave()`: a caller without the capability or a valid nonce is
        stopped and nothing is stored; a posted reset deletes the option and
        stores nothing; any other form stores its sanitized record. */
    method HandleSave(allowed: bool, post: Fields, textarea: Value -> string, text: Value -> string)
      modifies this
      ensures !allowed ==> saved == old(saved)
      ensures allowed && Checked(post, "media_alt_suggester_reset") ==> saved == None
      ensures allowed && !Checked(post, "media_alt_suggester_reset") ==> saved == Some(Obj(Sanitize(post, textarea, text)))
    {
      if !allowed {
        return;
      }
      if Checked(post, "media_alt_suggester_reset") {
        saved := None;
        return;
      }
      saved := Some(Obj(Sanitize(post, textarea, text)));
    }
  }

  // ---------------------------------------------------------------------------
  // `previewPrompt($settings)`.

  const PreviewVerbatim: string := "If on-image text is visible, copy the exact words verbatim into the alt text."
  const PreviewConcise: string := "If on-image text is visible and relevant, include the key wording concisely."

  /** The preview's six instructions, with the shorter on-image-text rules
      of the settings screen. */
  function PreviewInstructions(settings: Value): seq<string> {
    [PromptBuilder.Intro, PromptBuilder.Decorative,
     PromptBuilder.LengthRule(ToInt(Field(settings, "max_words"))),
     if Truthy(Field(settings, "force_verbatim_text")) then PreviewVerbatim else PreviewConcise,
     PromptBuilder.NoPreamble,
     PromptBuilder.ToneRule(ToStr(Field(settings, "tone")))]
  }

  lemma PreviewInstructionsLong(settings: Value)
    ensures var head := PreviewInstructions(settings);
            |head| == 6 && forall i :: 0 <= i < 6 ==> |head[i]| > 2
  {
    assert |PromptBuilder.Intro| > 2 && |PromptBuilder.Decorative| > 2;
    assert |PreviewVerbatim| > 2 && |PreviewConcise| > 2;
    assert |PromptBuilder.NoPreamble| > 2;
    assert |PromptBuilder.LengthRule(ToInt(Field(settings, "max_words")))| >= |PromptBuilder.LengthRulePrefix| > 2;
    assert |PromptBuilder.ToneRule(ToStr(Field(settings, "tone")))| >= 6;
  }

  /** The preview's lines before `array_filter`: the six instructions and
      the custom line when the custom instructions are not empty. */
  function PreviewLines(settings: Value): seq<string> {
    if Truthy(Field(settings, "custom_instructions")) then
      PreviewInstructions(settings) + [PromptBuilder.CustomPrefix + ToStr(Field(settings, "custom_instructions"))]
    else PreviewInstructions(settings)
  }

  function PreviewPrompt(settings: Value): string {
    Join(PromptBuilder.FilterTruthy(PreviewLines(settings)), "\n")
  }

  /** The preview keeps all its lines: six or seven, the seventh being the
      custom line, `Custom instructions: ` and the custom text, exactly
      when the custom instructions are not empty. */
  lemma PreviewShape(settings: Value)
    ensures var l := PromptBuilder.FilterTruthy(PreviewLines(settings));
            && l == PreviewLines(settings)
            && (|l| == 7 <==> Truthy(Field(settings, "custom_instructions")))
            && (|l| == 6 || |l| == 7)
            && l[3] == (if Truthy(Field(settings, "force_verbatim_text")) then PreviewVerbatim else PreviewConcise)
            && (|l| == 7 ==> l[6] == PromptBuilder.CustomPrefix + ToStr(Field(settings, "custom_instructions")))
  {
    var head := PreviewInstructions(settings);
    PreviewInstructionsLong(settings);
    var l := PreviewLines(settings);
    forall i | 0 <= i < |l| ensures Truthy(Str(l[i])) {
      if i < 6 {
        assert l[i] == head[i];
      } else {
        assert |l[i]| >= |PromptBuilder.CustomPrefix| > 2;
      }
      PromptBuilder.LongIsTruthy(l[i]);
    }
    PromptBuilder.FilterKeepsTruthy(l);
    assert |PreviewVerbatim| != |PreviewConcise|;
  }

  /** The preview reads back, line by line, as those lines when no line
      holds a line feed of its own. */
  lemma PreviewSplitsIntoLines(settings: Value)
    requires forall i :: 0 <= i < |PreviewLines(settings)| ==> '\n' !in PreviewLines(settings)[i]
    ensures Split(PreviewPrompt(settings), '\n') == PreviewLines(settings)
  {
    PreviewShape(settings);
    SplitJoin(PreviewLines(settings), '\n');
  }

  /** The preview of a settings record and the prompt built from a
      configuration holding the same tone and word limit share the intro,
      the decorative rule, the length rule, the preamble rule and the tone
      line; only the on-image-text wording differs. */
  lemma PreviewMatchesPrompt(settings: Value, config: Value, fv: Value, custom: Value)
    requires Field(config, "prompt") == settings
    requires Isset(FieldsOf(Some(settings)), "tone") && Isset(FieldsOf(Some(settings)), "max_words")
    ensures var p := PreviewLines(settings);
            var q := PromptBuilder.InstructionLines(config, fv, custom);
            p[0] == q[0] && p[1] == q[1] && p[2] == q[2] && p[4] == q[4] && p[5] == q[5]
            && p[3] != q[3]
  {
    SettingsReachPrompt(settings, config);
    RuleWordingsDiffer();
    PreviewHead(settings);
    PromptHead(config, fv, custom);
  }

  lemma PreviewHead(settings: Value)
    ensures var p := PreviewLines(settings);
            && |p| >= 6 && p[0] == PromptBuilder.Intro && p[1] == PromptBuilder.Decorative
            && p[2] == PromptBuilder.LengthRule(ToInt(Field(settings, "max_words")))
            && (p[3] == PreviewVerbatim || p[3] == PreviewConcise)
            && p[4] == PromptBuilder.NoPreamble && p[5] == PromptBuilder.ToneRule(ToStr(Field(settings, "tone")))
  {
    var p := PreviewLines(settings);
    var head := PreviewInstructions(settings);
    assert forall i :: 0 <= i < 6 ==> p[i] == head[i];
  }

  lemma PromptHead(config: Value, fv: Value, custom: Value)
    ensures var q := PromptBuilder.InstructionLines(config, fv, custom);
            && |q| >= 6 && q[0] == PromptBuilder.Intro && q[1] == PromptBuilder.Decorative
            && q[2] == PromptBuilder.LengthRule(PromptBuilder.MaxWords(config))
            && (q[3] == PromptBuilder.VerbatimRule || q[3] == PromptBuilder.ConciseRule)
            && q[4] == PromptBuilder.NoPreamble && q[5] == PromptBuilder.ToneRule(PromptBuilder.Tone(config))
  {
  }

  /** The tone and the word limit read from the settings record are those
      the prompt builder reads from the configuration. */
  lemma SettingsReachPrompt(settings: Value, config: Value)
    requires Field(config, "prompt") == settings
    requires Isset(FieldsOf(Some(settings)), "tone") && Isset(FieldsOf(Some(settings)), "max_words")
    ensures ToStr(Field(settings, "tone")) == PromptBuilder.Tone(config)
    ensures ToInt(Field(settings, "max_words")) == PromptBuilder.MaxWords(config)
  {
    assert settings.Obj?;
  }

  /** The preview's on-image-text rules are worded differently from the
      prompt's. */
  lemma RuleWordingsDiffer()
    ensures PreviewVerbatim != PromptBuilder.VerbatimRule && PreviewVerbatim != PromptBuilder.ConciseRule
    ensures PreviewConcise != PromptBuilder.VerbatimRule && PreviewConcise != PromptBuilder.ConciseRule
  {
    assert |PreviewVerbatim| != |PromptBuilder.VerbatimRule| && |PreviewVerbatim| != |PromptBuilder.ConciseRule|;
    assert |PreviewConcise| != |PromptBuilder.VerbatimRule| && |PreviewConcise| != |PromptBuilder.ConciseRule|;
  }
}
