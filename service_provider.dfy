/** The plugin's service provider: the saved settings written over the
    configuration when the plugin registers, what the upload hook and the
    REST endpoint store in post meta, and the ordering of the fields of the
    attachment edit form. The configuration repository and the post-meta
    table are fields of classes; the form's markup is a function
    parameter. */
module ServiceProvider {
  import opened Values
  import opened Text
  import opened BaseClient
  import PromptBuilder
  import SettingsPage
  import AltTextManager

  // ---------------------------------------------------------------------------
  // `applySettingsOverrides()`.

  /** `$a[$k] = $v` when there is a value `v` to write; nothing otherwise. */
  function Put(fs: Fields, k: string, o: Option<Value>): (r: Fields)
    ensures Lookup(r, k) == if o.Some? then o else Lookup(fs, k)
    ensures forall k' :: k' != k ==> Lookup(r, k') == Lookup(fs, k')
  {
    if o.Some? then Set(fs, k, o.value) else fs
  }

  /** Four such writes, to four different keys, one after the other. */
  function PutFour(fs: Fields, k1: string, o1: Option<Value>, k2: string, o2: Option<Value>,
                   k3: string, o3: Option<Value>, k4: string, o4: Option<Value>): (r: Fields)
    requires k1 != k2 && k1 != k3 && k1 != k4 && k2 != k3 && k2 != k4 && k3 != k4
    ensures Lookup(r, k1) == if o1.Some? then o1 else Lookup(fs, k1)
    ensures Lookup(r, k2) == if o2.Some? then o2 else Lookup(fs, k2)
    ensures Lookup(r, k3) == if o3.Some? then o3 else Lookup(fs, k3)
    ensures Lookup(r, k4) == if o4.Some? then o4 else Lookup(fs, k4)
    ensures forall k :: k != k1 && k != k2 && k != k3 && k != k4 ==> Lookup(r, k) == Lookup(fs, k)
  {
    var r1 := Put(fs, k1, o1);
    var r2 := Put(r1, k2, o2);
    var r3 := Put(r2, k3, o3);
    Put(r3, k4, o4)
  }

  /** The four keys of the `prompt` section the overrides write. */
  lemma PromptKeysDistinct()
    ensures "tone" != "max_words" && "tone" != "custom_instructions" && "tone" != "force_verbatim_text"
    ensures "max_words" != "custom_instructions" && "max_words" != "force_verbatim_text"
    ensures "custom_instructions" != "force_verbatim_text"
  {
    assert |"tone"| == 4 && |"max_words"| == 9 && |"custom_instructions"| == 19 && |"force_verbatim_text"| == 19;
    assert "custom_instructions"[0] != "force_verbatim_text"[0];
  }

  /** What is written under `tone` and `max_words`: the saved value when it
      is set and not null, the latter cast to int (and not clamped). */
  function ToneOverride(s: Fields): Option<Value> {
    if Isset(s, "tone") then Lookup(s, "tone") else None
  }

  function MaxWordsOverride(s: Fields): Option<Value> {
    if Isset(s, "max_words") then Some(Int(ToInt(Lookup(s, "max_words").value))) else None
  }

  /** What is written under `custom_instructions` and `force_verbatim_text`:
      the saved value, cast to string and to bool, whenever the key exists. */
  function CustomOverride(s: Fields): Option<Value> {
    if HasKey(s, "custom_instructions") then Some(Str(ToStr(Lookup(s, "custom_instructions").value))) else None
  }

  function VerbatimOverride(s: Fields): Option<Value> {
    if HasKey(s, "force_verbatim_text") then Some(Bool(Truthy(Lookup(s, "force_verbatim_text").value))) else None
  }

  /** The saved settings written over the `prompt` section: `tone` and
      `max_words` when they are set and not null (the latter cast to int and
      not clamped), `custom_instructions` and `force_verbatim_text` whenever
      the key exists (cast to string and to bool). Every other entry stays. */
  function PromptOverrides(prompt: Fields, s: Fields): (p: Fields)
    ensures Isset(s, "tone") ==> Lookup(p, "tone") == Lookup(s, "tone")
    ensures !Isset(s, "tone") ==> Lookup(p, "tone") == Lookup(prompt, "tone")
    ensures Isset(s, "max_words") ==> Lookup(p, "max_words") == Some(Int(ToInt(Lookup(s, "max_words").value)))
    ensures !Isset(s, "max_words") ==> Lookup(p, "max_words") == Lookup(prompt, "max_words")
    ensures HasKey(s, "custom_instructions") ==>
              Lookup(p, "custom_instructions") == Some(Str(ToStr(Lookup(s, "custom_instructions").value)))
    ensures !HasKey(s, "custom_instructions") ==> Lookup(p, "custom_instructions") == Lookup(prompt, "custom_instructions")
    ensures HasKey(s, "force_verbatim_text") ==>
              Lookup(p, "force_verbatim_text") == Some(Bool(Truthy(Lookup(s, "force_verbatim_text").value)))
    ensures !HasKey(s, "force_verbatim_text") ==> Lookup(p, "force_verbatim_text") == Lookup(prompt, "force_verbatim_text")
    ensures forall k :: k != "tone" && k != "max_words" && k != "custom_instructions" && k != "force_verbatim_text" ==>
              Lookup(p, k) == Lookup(prompt, k)
  {
    PromptKeysDistinct();
    PutFour(prompt, "tone", ToneOverride(s), "max_words", MaxWordsOverride(s),
            "custom_instructions", CustomOverride(s), "force_verbatim_text", VerbatimOverride(s))
  }

  /** The saved settings written over the `vision` section: `enabled` is
      the saved flag cast to bool, and `mode` is replaced only by a
      non-empty saved mode. */
  function VisionOverrides(vision: Fields, s: Fields): (v: Fields)
    ensures Lookup(v, "enabled") == Some(Bool(Truthy(Lookup(s, "vision_enabled").GetOr(Null))))
    ensures Truthy(Lookup(s, "vision_mode").GetOr(Null)) ==> Lookup(v, "mode") == Lookup(s, "vision_mode")
    ensures !Truthy(Lookup(s, "vision_mode").GetOr(Null)) ==> Lookup(v, "mode") == Lookup(vision, "mode")
    ensures forall k :: k != "enabled" && k != "mode" ==> Lookup(v, k) == Lookup(vision, k)
  {
    var v := Set(vision, "enabled", Bool(Truthy(Lookup(s, "vision_enabled").GetOr(Null))));
    if Truthy(Lookup(s, "vision_mode").GetOr(Null)) then Set(v, "mode", Lookup(s, "vision_mode").value) else v
  }

  /** The `media-alt` configuration after `applySettingsOverrides()` with
      the stored option `settings` (`[]` when there is none): an empty
      option changes nothing; otherwise the `prompt` section is rewritten,
      and the `vision` section only when the option has a `vision_enabled`
      key. No other section changes. */
  function ApplyOverrides(config: Fields, settings: Value): (r: Fields)
    ensures !Truthy(settings) ==> r == config
    ensures Truthy(settings) ==>
              Lookup(r, "prompt") == Some(Obj(PromptOverrides(FieldsOf(Lookup(config, "prompt")), FieldsOf(Some(settings)))))
    ensures Truthy(settings) && HasKey(FieldsOf(Some(settings)), "vision_enabled") ==>
              Lookup(r, "vision") == Some(Obj(VisionOverrides(FieldsOf(Lookup(config, "vision")), FieldsOf(Some(settings)))))
    ensures !HasKey(FieldsOf(Some(settings)), "vision_enabled") ==> Lookup(r, "vision") == Lookup(config, "vision")
    ensures forall k :: k != "prompt" && k != "vision" ==> Lookup(r, k) == Lookup(config, k)
  {
    if !Truthy(settings) then config
    else
      var s := FieldsOf(Some(settings));
      var vision := if HasKey(s, "vision_enabled") then Some(Obj(VisionOverrides(FieldsOf(Lookup(config, "vision")), s))) else None;
      SectionKeysDistinct();
      var c := Put(config, "prompt", Some(Obj(PromptOverrides(FieldsOf(Lookup(config, "prompt")), s))));
      Put(c, "vision", vision)
  }

  /** The two sections the overrides write. */
  lemma SectionKeysDistinct()
    ensures "prompt" != "vision"
  {
    assert "prompt"[0] != "vision"[0];
  }

  /** The overrides of a non-empty option as the two writes
      `applySettingsOverrides()` makes. */
  lemma OverridesAsWrites(config: Fields, settings: Value)
    requires Truthy(settings)
    ensures var s := FieldsOf(Some(settings));
            var c := Set(config, "prompt", Obj(PromptOverrides(FieldsOf(Lookup(config, "prompt")), s)));
            ApplyOverrides(config, settings) ==
              if HasKey(s, "vision_enabled") then Set(c, "vision", Obj(VisionOverrides(FieldsOf(Lookup(config, "vision")), s)))
              else c
  {
  }

  /** The configuration repository, holding the `media-alt` section. */
  class ConfigRepository {
    var items: Fields

    constructor (items: Fields)
      ensures this.items == items
    {
      this.items := items;
    }

    /** `applySettingsOverrides()` with `get_option` standing for the stored
        option. */
    method ApplySettingsOverrides(option: Option<Value>)
      modifies this
      ensures items == ApplyOverrides(old(items), option.GetOr(Obj([])))
    {
      var settings := option.GetOr(Obj([]));
      if !Truthy(settings) {
        return;
      }
      var s := FieldsOf(Some(settings));
      ghost var before := items;
      var prompt := FieldsOf(Lookup(items, "prompt"));
      prompt := Put(prompt, "tone", ToneOverride(s));
      prompt := Put(prompt, "max_words", MaxWordsOverride(s));
      prompt := Put(prompt, "custom_instructions", CustomOverride(s));
      prompt := Put(prompt, "force_verbatim_text", VerbatimOverride(s));
      assert prompt == PromptOverrides(FieldsOf(Lookup(before, "prompt")), s);
      items := Set(items, "prompt", Obj(prompt));
      SectionKeysDistinct();
      if HasKey(s, "vision_enabled") {
        var vision := FieldsOf(Lookup(items, "vision"));
        assert vision == FieldsOf(Lookup(before, "vision"));
        vision := Set(vision, "enabled", Bool(Truthy(Lookup(s, "vision_enabled").value)));
        if Truthy(Lookup(s, "vision_mode").GetOr(Null)) {
          vision := Set(vision, "mode", Lookup(s, "vision_mode").value);
        }
        assert vision == VisionOverrides(FieldsOf(Lookup(before, "vision")), s);
        items := Set(items, "vision", Obj(vision));
      }
      OverridesAsWrites(before, settings);
    }
  }

  /** A form saved on the settings screen reaches the pipeline: after the
      overrides, the prompt builder reads the saved word limit (already
      clamped to 5..60) and tone, the saved flags and custom instructions
      sit in the `prompt` section, and the vision switch is the saved
      checkbox. A posted vision mode replaces the configured one; without
      one the configured mode stays. */
  lemma SavedSettingsReachPipeline(config: Fields, post: Fields, textarea: Value -> string, text: Value -> string)
    ensures var c := Obj(ApplyOverrides(config, Obj(SettingsPage.Sanitize(post, textarea, text))));
            && PromptBuilder.MaxWords(c) == SettingsPage.PostedMaxWords(post)
            && SettingsPage.MinWords <= PromptBuilder.MaxWords(c) <= SettingsPage.MaxWordsLimit
            && PromptBuilder.Tone(c) == text(Coalesce(Lookup(post, "tone"), Str(SettingsPage.DefaultTone)))
            && Field(Field(c, "prompt"), "custom_instructions") ==
                 Str(textarea(Coalesce(Lookup(post, "custom_instructions"), Str(""))))
            && Field(Field(c, "prompt"), "force_verbatim_text") == Bool(SettingsPage.Checked(post, "force_verbatim_text"))
            && Field(AltTextManager.Vision(c), "enabled") == Bool(SettingsPage.Checked(post, "vision_enabled"))
            && (Isset(post, "vision_mode") ==> Field(AltTextManager.Vision(c), "mode") == SettingsPage.PostedVisionMode(post))
            && (!Isset(post, "vision_mode") ==>
                  Get(AltTextManager.Vision(c), "mode") == Lookup(FieldsOf(Lookup(config, "vision")), "mode"))
  {
    SavedPromptReachesBuilder(config, post, textarea, text);
    SavedVisionReachesManager(config, post, textarea, text);
  }

  /** The prompt half of the above. */
  lemma SavedPromptReachesBuilder(config: Fields, post: Fields, textarea: Value -> string, text: Value -> string)
    ensures var c := Obj(ApplyOverrides(config, Obj(SettingsPage.Sanitize(post, textarea, text))));
            && PromptBuilder.MaxWords(c) == SettingsPage.PostedMaxWords(post)
            && SettingsPage.MinWords <= PromptBuilder.MaxWords(c) <= SettingsPage.MaxWordsLimit
            && PromptBuilder.Tone(c) == text(Coalesce(Lookup(post, "tone"), Str(SettingsPage.DefaultTone)))
            && Field(Field(c, "prompt"), "custom_instructions") ==
                 Str(textarea(Coalesce(Lookup(post, "custom_instructions"), Str(""))))
            && Field(Field(c, "prompt"), "force_verbatim_text") == Bool(SettingsPage.Checked(post, "force_verbatim_text"))
  {
    var saved := SettingsPage.Sanitize(post, textarea, text);
    var a := ApplyOverrides(config, Obj(saved));
    SavedSections(config, saved);
    var p := PromptOverrides(FieldsOf(Lookup(config, "prompt")), saved);
    SavedPromptEntries(FieldsOf(Lookup(config, "prompt")), post, textarea, text);
    var c := Obj(a);
    assert Field(c, "prompt") == Obj(p);
    BuilderReads(c, p, SettingsPage.PostedMaxWords(post), text(Coalesce(Lookup(post, "tone"), Str(SettingsPage.DefaultTone))));
  }

  /** The prompt builder reads an integer word limit and a string tone as
      they sit in the `prompt` section. */
  lemma BuilderReads(c: Value, p: Fields, m: int, t: string)
    requires Field(c, "prompt") == Obj(p)
    requires Lookup(p, "max_words") == Some(Int(m)) && Lookup(p, "tone") == Some(Str(t))
    ensures PromptBuilder.MaxWords(c) == m && PromptBuilder.Tone(c) == t
  {
  }

  /** The four prompt entries of a saved form, written over a `prompt`
      section. */
  lemma SavedPromptEntries(prompt: Fields, post: Fields, textarea: Value -> string, text: Value -> string)
    ensures var p := PromptOverrides(prompt, SettingsPage.Sanitize(post, textarea, text));
            && Lookup(p, "max_words") == Some(Int(SettingsPage.PostedMaxWords(post)))
            && Lookup(p, "tone") == Some(Str(text(Coalesce(Lookup(post, "tone"), Str(SettingsPage.DefaultTone)))))
            && Lookup(p, "custom_instructions") == Some(Str(textarea(Coalesce(Lookup(post, "custom_instructions"), Str("")))))
            && Lookup(p, "force_verbatim_text") == Some(Bool(SettingsPage.Checked(post, "force_verbatim_text")))
  {
    var saved := SettingsPage.Sanitize(post, textarea, text);
    PromptEntries(prompt, saved, SettingsPage.PostedMaxWords(post),
                  text(Coalesce(Lookup(post, "tone"), Str(SettingsPage.DefaultTone))),
                  textarea(Coalesce(Lookup(post, "custom_instructions"), Str(""))),
                  SettingsPage.Checked(post, "force_verbatim_text"));
  }

  /** A record holding the four prompt settings with their saved types
      passes each of them on unchanged. */
  lemma PromptEntries(prompt: Fields, saved: Fields, m: int, t: string, c: string, f: bool)
    requires Lookup(saved, "max_words") == Some(Int(m)) && Lookup(saved, "tone") == Some(Str(t))
    requires Lookup(saved, "custom_instructions") == Some(Str(c))
    requires Lookup(saved, "force_verbatim_text") == Some(Bool(f))
    ensures var p := PromptOverrides(prompt, saved);
            && Lookup(p, "max_words") == Some(Int(m)) && Lookup(p, "tone") == Some(Str(t))
            && Lookup(p, "custom_instructions") == Some(Str(c))
            && Lookup(p, "force_verbatim_text") == Some(Bool(f))
  {
    assert Isset(saved, "max_words") && Isset(saved, "tone");
  }

  /** The vision half of the above. */
  lemma SavedVisionReachesManager(config: Fields, post: Fields, textarea: Value -> string, text: Value -> string)
    ensures var c := Obj(ApplyOverrides(config, Obj(SettingsPage.Sanitize(post, textarea, text))));
            && Field(AltTextManager.Vision(c), "enabled") == Bool(SettingsPage.Checked(post, "vision_enabled"))
            && (Isset(post, "vision_mode") ==> Field(AltTextManager.Vision(c), "mode") == SettingsPage.PostedVisionMode(post))
            && (!Isset(post, "vision_mode") ==>
                  Get(AltTextManager.Vision(c), "mode") == Lookup(FieldsOf(Lookup(config, "vision")), "mode"))
  {
    var saved := SettingsPage.Sanitize(post, textarea, text);
    var a := ApplyOverrides(config, Obj(saved));
    SavedSections(config, saved);
    var v := VisionOverrides(FieldsOf(Lookup(config, "vision")), saved);
    assert AltTextManager.Vision(Obj(a)) == Obj(v);
    var mode := SettingsPage.PostedVisionMode(post);
    assert Isset(post, "vision_mode") ==> Truthy(mode);
  }

  /** The sections the overrides of a saved record write. */
  lemma SavedSections(config: Fields, saved: Fields)
    requires HasKey(saved, "vision_enabled")
    ensures Lookup(ApplyOverrides(config, Obj(saved)), "prompt") ==
              Some(Obj(PromptOverrides(FieldsOf(Lookup(config, "prompt")), saved)))
    ensures Lookup(ApplyOverrides(config, Obj(saved)), "vision") ==
              Some(Obj(VisionOverrides(FieldsOf(Lookup(config, "vision")), saved)))
  {
    assert Truthy(Obj(saved));
    assert FieldsOf(Some(Obj(saved))) == saved;
  }

  // ---------------------------------------------------------------------------
  // Post meta: `primeSuggestion()` and `handleSuggestion()`.

  const SuggestionKey: string := "_ai_alt_suggestion"
  const AltKey: string := "_wp_attachment_image_alt"
  const FailureCode: string := "media_alt_suggestion_failed"

  type Meta = map<(int, string), string>

  /** The two meta keys `primeSuggestion` writes. */
  lemma MetaKeysDistinct()
    ensures SuggestionKey != AltKey
  {
    assert |SuggestionKey| == 18 && |AltKey| == 24;
  }

  /** `get_post_meta($id, $key, true)`: the stored string, `""` when none. */
  function MetaGet(meta: Meta, id: int, key: string): string {
    if (id, key) in meta then meta[(id, key)] else ""
  }

  /** Whether `primeSuggestion($id)` asks for a suggestion at all:
      autosuggest is on and the attachment has no alt text yet. */
  predicate PrimeAsks(config: Value, meta: Meta, id: int) {
    Truthy(Field(config, "autosuggest_on_upload")) && !Truthy(Str(MetaGet(meta, id, AltKey)))
  }

  /** The meta `handleSuggestion` writes for a result: the suggestion, when
      the call succeeded and the suggestion is not empty. */
  function StoreSuggestion(meta: Meta, id: int, r: Outcome<AltTextManager.Suggestion>): (m: Meta)
    ensures (r.Thrown? || !Truthy(Str(r.value.suggestion))) ==> m == meta
    ensures r.Ok? && Truthy(Str(r.value.suggestion)) ==>
              (id, SuggestionKey) in m && m[(id, SuggestionKey)] == r.value.suggestion
    ensures forall key :: key != (id, SuggestionKey) ==> (key in m <==> key in meta)
    ensures forall key :: key in meta && key != (id, SuggestionKey) ==> m[key] == meta[key]
  {
    if r.Ok? && Truthy(Str(r.value.suggestion)) then meta[(id, SuggestionKey) := r.value.suggestion] else meta
  }

  /** The meta `primeSuggestion` writes for a result: the suggestion as
      `handleSuggestion` stores it and, when `auto_fill_empty_alt` is set,
      the same text as the alt text. A thrown call writes nothing, and
      nothing but the two keys of that attachment ever changes. */
  function PrimeWrites(config: Value, meta: Meta, id: int, r: Outcome<AltTextManager.Suggestion>): (m: Meta)
    ensures r.Thrown? ==> m == meta
    ensures r.Ok? && Truthy(Str(r.value.suggestion)) ==> MetaGet(m, id, SuggestionKey) == r.value.suggestion
    ensures r.Ok? && Truthy(Str(r.value.suggestion)) && Truthy(Field(config, "auto_fill_empty_alt")) ==>
              MetaGet(m, id, AltKey) == r.value.suggestion
    ensures !Truthy(Field(config, "auto_fill_empty_alt")) ==> m == StoreSuggestion(meta, id, r)
    ensures forall key :: key != (id, SuggestionKey) && key != (id, AltKey) ==> (key in m <==> key in meta)
    ensures forall key :: key in meta && key != (id, SuggestionKey) && key != (id, AltKey) ==> m[key] == meta[key]
  {
    var m := StoreSuggestion(meta, id, r);
    if r.Ok? && Truthy(Str(r.value.suggestion)) && Truthy(Field(config, "auto_fill_empty_alt")) then
      m[(id, AltKey) := r.value.suggestion]
    else m
  }

  /** The failure action `primeSuggestion` fires: one, for a thrown call. */
  function Failures(id: int, r: Outcome<AltTextManager.Suggestion>): (f: seq<(int, Exception)>)
    ensures r.Ok? <==> f == []
    ensures r.Thrown? ==> f == [(id, r.error)]
  {
    if r.Thrown? then [(id, r.error)] else []
  }

  /** `$request->get_param('provider') ?: null`. */
  function ProviderParam(p: Option<string>): (r: Option<string>)
    ensures r.Some? <==> p.Some? && p.value != "" && p.value != "0"
    ensures r.Some? ==> r == p
  {
    if p.Some? && Truthy(Str(p.value)) then p else None
  }

  /** What the REST endpoint answers: the result array, or a `WP_Error`
      with a code, a message and an HTTP status. */
  datatype RestResponse =
    | Success(result: AltTextManager.Suggestion)
    | Failure(code: string, message: string, status: int)

  /** `rest_ensure_response($result)`, or the error for any throwable. */
  function Respond(r: Outcome<AltTextManager.Suggestion>): (resp: RestResponse)
    ensures r.Ok? <==> resp.Success?
    ensures r.Ok? ==> resp.result == r.value
    ensures r.Thrown? ==> resp == Failure(FailureCode, r.error.message, 500)
  {
    match r
    case Ok(res) => Success(res)
    case Thrown(e) => Failure(FailureCode, e.message, 500)
  }

  // ---------------------------------------------------------------------------
  // `addSuggestionField()`: the provider options and the field order.

  const AiField: string := "ai_alt_suggestion"
  const AltField: string := "image_alt"

  /** One `<option>` of the provider select. */
  datatype ProviderOption = ProviderOption(value: string, selected: bool, caption: string)

  /** `config('media-alt.default_provider', 'openai')`: the default applies
      only when the key is missing. */
  function DefaultProvider(config: Value): Value {
    Get(config, "default_provider").GetOr(Str("openai"))
  }

  /** The option for one configured provider: selected when its key is
      identical to the default provider, labelled with `ucfirst`. */
  function OptionFor(provider: string, defaultProvider: Value): ProviderOption {
    ProviderOption(provider, Str(provider) == defaultProvider, Ucfirst(provider))
  }

  /** The options, one per configured provider, in configuration order. */
  function ProviderOptionList(providers: Fields, defaultProvider: Value): (os: seq<ProviderOption>)
    decreases |providers|
  {
    if providers == [] then []
    else ProviderOptionList(providers[..|providers| - 1], defaultProvider) + [OptionFor(providers[|providers| - 1].0, defaultProvider)]
  }

  /** The option list has one entry for each provider, at its position. */
  lemma OptionListShape(providers: Fields, d: Value)
    ensures var os := ProviderOptionList(providers, d);
            |os| == |providers| && forall i :: 0 <= i < |os| ==> os[i] == OptionFor(providers[i].0, d)
  {
    OptionListLength(providers, d);
    forall i | 0 <= i < |providers|
      ensures ProviderOptionList(providers, d)[i] == OptionFor(providers[i].0, d)
    {
      OptionAt(providers, d, i);
    }
  }

  lemma {:induction false} OptionListLength(providers: Fields, d: Value)
    ensures |ProviderOptionList(providers, d)| == |providers|
    decreases |providers|
  {
    if providers != [] {
      OptionListLength(providers[..|providers| - 1], d);
    }
  }

  lemma {:induction false} OptionAt(providers: Fields, d: Value, i: nat)
    requires i < |providers|
    ensures |ProviderOptionList(providers, d)| == |providers|
    ensures ProviderOptionList(providers, d)[i] == OptionFor(providers[i].0, d)
    decreases |providers|
  {
    var init := providers[..|providers| - 1];
    OptionListLength(providers, d);
    OptionListLength(init, d);
    if i < |init| {
      OptionAt(init, d, i);
      assert init[i] == providers[i];
    }
  }

  /** Exactly the default provider is selected: an option is selected iff
      its key is the default, so with distinct keys at most one is, and one
      is iff the default names a configured provider. */
  lemma SelectedIsDefault(providers: Fields, d: Value)
    requires UniqueKeys(providers)
    ensures var os := ProviderOptionList(providers, d);
            && |os| == |providers|
            && (forall i :: 0 <= i < |os| ==> (os[i].selected <==> d == Str(providers[i].0)))
            && (forall i, j :: 0 <= i < |os| && 0 <= j < |os| && os[i].selected && os[j].selected ==> i == j)
            && ((exists i :: 0 <= i < |os| && os[i].selected) <==> (d.Str? && HasKey(providers, d.s)))
  {
    OptionListShape(providers, d);
    var os := ProviderOptionList(providers, d);
    if d.Str? && HasKey(providers, d.s) {
      var i :| 0 <= i < |providers| && providers[i].0 == d.s;
      assert os[i].selected;
    }
  }

  /** `<option value="{$provider}" {$selected}>{$label}</option>`. */
  function Render(o: ProviderOption): string {
    "<option value=\"" + o.value + "\" " + (if o.selected then "selected" else "") + ">" + o.caption + "</option>"
  }

  function RenderAll(os: seq<ProviderOption>): string
    decreases |os|
  {
    if os == [] then "" else RenderAll(os[..|os| - 1]) + Render(os[|os| - 1])
  }

  /** The `$providerOptions` loop. */
  method ProviderOptions(providers: Fields, defaultProvider: Value) returns (html: string)
    ensures html == RenderAll(ProviderOptionList(providers, defaultProvider))
  {
    html := "";
    for i := 0 to |providers|
      invariant html == RenderAll(ProviderOptionList(providers[..i], defaultProvider))
    {
      var o := OptionFor(providers[i].0, defaultProvider);
      var os := ProviderOptionList(providers[..i + 1], defaultProvider);
      assert providers[..i + 1][..i] == providers[..i];
      assert os[..|os| - 1] == ProviderOptionList(providers[..i], defaultProvider);
      html := html + Render(o);
    }
    assert providers[..|providers|] == providers;
  }

  /** The field array `addSuggestionField` adds; its markup is what
      `render` makes of the attachment ID, the stored suggestion and the
      provider options. */
  function SuggestionField(html: string): Value {
    Obj([("label", Str("AI Alt Suggestion")), ("input", Str("html")), ("html", Str(html)),
         ("show_in_edit", Bool(true)), ("show_in_modal", Bool(false))])
  }

  // The ordering loop is stated for any anchor key and any new key, and
  // used with `image_alt` and `ai_alt_suggestion`.

  /** One pass of the ordering loop: copy the entry, and put the new field
      right behind the anchor. */
  function CopyStep(ordered: Fields, entry: (string, Value), anchor: string, key: string, field: Value): Fields {
    var o := Set(ordered, entry.0, entry.1);
    if entry.0 == anchor then Set(o, key, field) else o
  }

  /** The ordering loop over the first entries of the form. */
  function Copied(fields: Fields, anchor: string, key: string, field: Value): Fields
    decreases |fields|
  {
    if fields == [] then []
    else CopyStep(Copied(fields[..|fields| - 1], anchor, key, field), fields[|fields| - 1], anchor, key, field)
  }

  /** The ordering loop and the fallback: the array `addSuggestionField`
      returns. */
  function WithField(fields: Fields, anchor: string, key: string, field: Value): Fields {
    var o := Copied(fields, anchor, key, field);
    if Isset(o, key) then o else Set(o, key, field)
  }

  /** The first position of a key. */
  function IndexOf(fs: Fields, k: string): (r: Option<nat>)
    ensures r.None? ==> forall i :: 0 <= i < |fs| ==> fs[i].0 != k
    ensures r.Some? ==> r.value < |fs| && fs[r.value].0 == k && forall i :: 0 <= i < r.value ==> fs[i].0 != k
    decreases |fs|
  {
    if fs == [] then None
    else if fs[0].0 == k then Some(0)
    else
      var r := IndexOf(fs[1..], k);
      if r.None? then None else Some(r.value + 1)
  }

  /** The form with the field inserted: right after the anchor when the
      form has one, at the end otherwise. */
  function Inserted(fields: Fields, anchor: string, key: string, field: Value): (r: Fields)
    ensures |r| == |fields| + 1
    ensures IndexOf(fields, anchor).None? ==> r == fields + [(key, field)]
    ensures IndexOf(fields, anchor).Some? ==>
              var j := IndexOf(fields, anchor).value;
              r[..j + 1] == fields[..j + 1] && r[j + 1] == (key, field) && r[j + 2..] == fields[j + 1..]
  {
    match IndexOf(fields, anchor)
    case None => fields + [(key, field)]
    case Some(j) => fields[..j + 1] + [(key, field)] + fields[j + 1..]
  }

  /** The entries of the form, in order, without those under `k`. */
  function Without(fs: Fields, k: string): (r: Fields)
    decreases |fs|
  {
    if fs == [] then [] else (if fs[0].0 == k then [] else [fs[0]]) + Without(fs[1..], k)
  }

  lemma {:induction false} WithoutConcat(a: Fields, b: Fields, k: string)
    ensures Without(a + b, k) == Without(a, k) + Without(b, k)
    decreases |a|
  {
    if a != [] {
      WithoutConcat(a[1..], b, k);
      var h := if a[0].0 == k then [] else [a[0]];
      assert (a + b)[0] == a[0] && (a + b)[1..] == a[1..] + b;
      assert Without(a + b, k) == h + Without(a[1..] + b, k);
      assert Without(a, k) == h + Without(a[1..], k);
      assert h + (Without(a[1..], k) + Without(b, k)) == (h + Without(a[1..], k)) + Without(b, k);
    } else {
      assert a + b == b;
    }
  }

  lemma {:induction false} WithoutAbsent(fs: Fields, k: string)
    requires forall i :: 0 <= i < |fs| ==> fs[i].0 != k
    ensures Without(fs, k) == fs
    decreases |fs|
  {
    if fs != [] {
      WithoutAbsent(fs[1..], k);
    }
  }

  /** An entry with a new key put anywhere into an array with distinct keys
      leaves the keys distinct, and reads back under its key. */
  lemma InsertFresh(fields: Fields, x: (string, Value), j: nat)
    requires j <= |fields| && UniqueKeys(fields) && forall i :: 0 <= i < |fields| ==> fields[i].0 != x.0
    ensures UniqueKeys(fields[..j] + [x] + fields[j..])
    ensures Lookup(fields[..j] + [x] + fields[j..], x.0) == Some(x.1)
  {
    var r := fields[..j] + [x] + fields[j..];
    assert forall i :: 0 <= i < j ==> r[i] == fields[i];
    assert r[j] == x;
    assert forall i :: j < i < |r| ==> r[i] == fields[i - 1];
    LookupAt(r, j);
  }

  /** Inserting the field keeps every other entry in its order, and never
      repeats a key: with a form that does not have the new key yet, it
      occurs exactly once and holds the new field. */
  lemma InsertedKeepsForm(fields: Fields, anchor: string, key: string, field: Value)
    requires UniqueKeys(fields) && forall i :: 0 <= i < |fields| ==> fields[i].0 != key
    ensures var r := Inserted(fields, anchor, key, field);
            && Without(r, key) == fields
            && UniqueKeys(r)
            && Lookup(r, key) == Some(field)
  {
    var j := match IndexOf(fields, anchor) case None => |fields| case Some(i) => i + 1;
    assert Inserted(fields, anchor, key, field) == fields[..j] + [(key, field)] + fields[j..];
    InsertFresh(fields, (key, field), j);
    WithoutInserted(fields, (key, field), j);
  }

  /** Taking a fresh entry out again gives back the array. */
  lemma WithoutInserted(fields: Fields, x: (string, Value), j: nat)
    requires j <= |fields| && forall i :: 0 <= i < |fields| ==> fields[i].0 != x.0
    ensures Without(fields[..j] + [x] + fields[j..], x.0) == fields
  {
    var a, b := fields[..j], fields[j..];
    assert fields == a + b;
    WithoutConcat(a + [x], b, x.0);
    WithoutConcat(a, [x], x.0);
    WithoutConcat(a, b, x.0);
    WithoutAbsent(fields, x.0);
    assert Without([x], x.0) == [];
  }

  /** Writing a key the array does not have appends it. */
  lemma {:induction false} SetAppends(fs: Fields, k: string, v: Value)
    requires forall i :: 0 <= i < |fs| ==> fs[i].0 != k
    ensures Set(fs, k, v) == fs + [(k, v)]
    decreases |fs|
  {
    if fs != [] {
      SetAppends(fs[1..], k, v);
    }
  }

  /** The form before the anchor is reached, or with the field already
      right behind it: what the ordering loop has built after the first
      entries. */
  function PartlyInserted(xs: Fields, anchor: string, key: string, field: Value): Fields {
    match IndexOf(xs, anchor)
    case None => xs
    case Some(j) => xs[..j + 1] + [(key, field)] + xs[j + 1..]
  }

  /** The keys of the partly built form are those of the form read so far,
      and the new key. */
  lemma PartlyInsertedKeys(xs: Fields, anchor: string, key: string, field: Value, k: string)
    requires k != key && forall i :: 0 <= i < |xs| ==> xs[i].0 != k
    ensures forall i :: 0 <= i < |PartlyInserted(xs, anchor, key, field)| ==> PartlyInserted(xs, anchor, key, field)[i].0 != k
  {
  }

  /** Where a key first occurs once an entry is appended: at the new
      entry when the key was missing, unchanged when the entry has another
      key. */
  lemma IndexAppendFirst(xs: Fields, e: (string, Value), k: string)
    requires (forall i :: 0 <= i < |xs| ==> xs[i].0 != k) && e.0 == k
    ensures IndexOf(xs + [e], k) == Some(|xs|)
  {
    var o := xs + [e];
    assert forall i :: 0 <= i < |xs| ==> o[i] == xs[i];
    var r := IndexOf(o, k);
    assert o[|xs|].0 == k;
  }

  lemma IndexAppendOther(xs: Fields, e: (string, Value), k: string)
    requires e.0 != k
    ensures IndexOf(xs + [e], k) == IndexOf(xs, k)
  {
    var o := xs + [e];
    assert forall i :: 0 <= i < |xs| ==> o[i] == xs[i];
    var r, q := IndexOf(o, k), IndexOf(xs, k);
    assert o[|xs|].0 != k;
    if q.Some? {
      assert o[q.value].0 == k;
    }
  }

  /** Copying the anchor into a form that does not have it yet appends it
      with the field right behind. */
  lemma CopyAnchorStep(xs: Fields, e: (string, Value), anchor: string, key: string, field: Value)
    requires e.0 == anchor && anchor != key
    requires forall i :: 0 <= i < |xs| ==> xs[i].0 != anchor && xs[i].0 != key
    ensures CopyStep(PartlyInserted(xs, anchor, key, field), e, anchor, key, field) == PartlyInserted(xs + [e], anchor, key, field)
  {
    assert IndexOf(xs, anchor).None?;
    CopyAnchorAppends(xs, e, anchor, key, field);
    IndexAppendFirst(xs, e, anchor);
    AnchorSplit(xs, e, anchor, key, field);
  }

  lemma CopyAnchorAppends(xs: Fields, e: (string, Value), anchor: string, key: string, field: Value)
    requires e.0 == anchor && anchor != key
    requires forall i :: 0 <= i < |xs| ==> xs[i].0 != key && xs[i].0 != anchor
    ensures CopyStep(xs, e, anchor, key, field) == xs + [e] + [(key, field)]
  {
    SetAppends(xs, e.0, e.1);
    var o := xs + [e];
    assert forall i :: 0 <= i < |o| ==> o[i].0 != key;
    SetAppends(o, key, field);
  }

  lemma AnchorSplit(xs: Fields, e: (string, Value), anchor: string, key: string, field: Value)
    requires IndexOf(xs + [e], anchor) == Some(|xs|)
    ensures PartlyInserted(xs + [e], anchor, key, field) == xs + [e] + [(key, field)]
  {
    var o := xs + [e];
    assert o[..|xs| + 1] == o && o[|xs| + 1..] == [];
  }

  /** Copying any other entry with a new key appends it. */
  lemma CopyOtherStep(xs: Fields, e: (string, Value), anchor: string, key: string, field: Value)
    requires e.0 != anchor && e.0 != key && forall i :: 0 <= i < |xs| ==> xs[i].0 != e.0
    ensures CopyStep(PartlyInserted(xs, anchor, key, field), e, anchor, key, field) == PartlyInserted(xs + [e], anchor, key, field)
  {
    var p := PartlyInserted(xs, anchor, key, field);
    PartlyInsertedKeys(xs, anchor, key, field, e.0);
    SetAppends(p, e.0, e.1);
    assert CopyStep(p, e, anchor, key, field) == p + [e];
    IndexAppendOther(xs, e, anchor);
    PartlyInsertedAppend(xs, e, anchor, key, field);
  }

  /** Appending an entry that is not the anchor appends it to the partly
      built form. */
  lemma PartlyInsertedAppend(xs: Fields, e: (string, Value), anchor: string, key: string, field: Value)
    requires IndexOf(xs + [e], anchor) == IndexOf(xs, anchor)
    ensures PartlyInserted(xs + [e], anchor, key, field) == PartlyInserted(xs, anchor, key, field) + [e]
  {
    var o := xs + [e];
    match IndexOf(xs, anchor)
    case None =>
    case Some(j) =>
      assert o[..j + 1] == xs[..j + 1];
      assert o[j + 1..] == xs[j + 1..] + [e];
  }

  /** The ordering loop on a form with distinct keys, none of them the new
      key, builds the partly inserted form, entry by entry. */
  lemma {:induction false} CopiedIsPartlyInserted(fields: Fields, anchor: string, key: string, field: Value)
    requires anchor != key
    requires UniqueKeys(fields) && forall i :: 0 <= i < |fields| ==> fields[i].0 != key
    ensures Copied(fields, anchor, key, field) == PartlyInserted(fields, anchor, key, field)
    decreases |fields|
  {
    if fields != [] {
      var n := |fields| - 1;
      var xs, e := fields[..n], fields[n];
      assert fields == xs + [e];
      assert forall i :: 0 <= i < |xs| ==> xs[i] == fields[i];
      assert UniqueKeys(xs);
      CopiedIsPartlyInserted(xs, anchor, key, field);
      if e.0 == anchor {
        CopyAnchorStep(xs, e, anchor, key, field);
      } else {
        CopyOtherStep(xs, e, anchor, key, field);
      }
    }
  }

  /** The loop and its fallback on a form with distinct keys, none of them
      the new key, insert the field right after the anchor, or append it
      when there is no anchor. */
  lemma WithFieldIsInserted(fields: Fields, anchor: string, key: string, field: Value)
    requires anchor != key && field != Null
    requires UniqueKeys(fields) && forall i :: 0 <= i < |fields| ==> fields[i].0 != key
    ensures WithField(fields, anchor, key, field) == Inserted(fields, anchor, key, field)
  {
    CopiedIsPartlyInserted(fields, anchor, key, field);
    if IndexOf(fields, anchor).None? {
      NoAnchorAppends(fields, anchor, key, field);
    } else {
      AnchorKeepsField(fields, anchor, key, field);
    }
  }

  lemma NoAnchorAppends(fields: Fields, anchor: string, key: string, field: Value)
    requires IndexOf(fields, anchor).None? && forall i :: 0 <= i < |fields| ==> fields[i].0 != key
    ensures !Isset(PartlyInserted(fields, anchor, key, field), key)
    ensures Set(PartlyInserted(fields, anchor, key, field), key, field) == Inserted(fields, anchor, key, field)
  {
    assert PartlyInserted(fields, anchor, key, field) == fields;
    SetAppends(fields, key, field);
  }

  lemma AnchorKeepsField(fields: Fields, anchor: string, key: string, field: Value)
    requires IndexOf(fields, anchor).Some? && field != Null
    requires UniqueKeys(fields) && forall i :: 0 <= i < |fields| ==> fields[i].0 != key
    ensures Isset(PartlyInserted(fields, anchor, key, field), key)
    ensures PartlyInserted(fields, anchor, key, field) == Inserted(fields, anchor, key, field)
  {
    var j := IndexOf(fields, anchor).value;
    InsertFresh(fields, (key, field), j + 1);
  }

  /** The two field names the ordering loop looks at. */
  lemma FieldNamesDistinct()
    ensures AltField != AiField
  {
    assert |AltField| == 9 && |AiField| == 17;
  }

  /** `addSuggestionField` on a form with distinct keys and no
      `ai_alt_suggestion` returns the form with the field inserted right
      after `image_alt`, or appended when there is no `image_alt`; the
      field occurs exactly once, and taking it out gives back the form in
      its original order. */
  lemma PlacesFieldAfterAlt(fields: Fields, field: Value)
    requires UniqueKeys(fields) && !HasKey(fields, AiField) && field != Null
    ensures var r := WithField(fields, AltField, AiField, field);
            && r == Inserted(fields, AltField, AiField, field)
            && Without(r, AiField) == fields
            && UniqueKeys(r)
            && Lookup(r, AiField) == Some(field)
  {
    FieldNamesDistinct();
    assert forall i :: 0 <= i < |fields| ==> fields[i].0 != AiField;
    WithFieldIsInserted(fields, AltField, AiField, field);
    InsertedKeepsForm(fields, AltField, AiField, field);
  }

  // ---------------------------------------------------------------------------
  // The hooks, over the post-meta table.

  /** The plugin's hooks, the manager they call and the parts of WordPress
      they write: the post-meta table and the failure actions fired. */
  class Plugin {
    const manager: AltTextManager.Manager
    var meta: Meta
    var failures: seq<(int, Exception)>

    constructor (manager: AltTextManager.Manager, meta: Meta)
      ensures this.manager == manager && this.meta == meta && failures == []
    {
      this.manager := manager;
      this.meta := meta;
      failures := [];
    }

    /** `primeSuggestion($id)`, run on upload and edit: nothing happens, and
        no suggestion is asked for, when autosuggest is off or the
        attachment already has alt text; otherwise the result is written as
        `PrimeWrites` says, and a thrown call only fires the failure action.
        A non-empty alt text is never overwritten. */
    method PrimeSuggestion(id: int, world: AltTextManager.World)
      requires manager.clients.Valid()
      modifies this, manager.clients
      ensures manager.clients.Valid()
      ensures !PrimeAsks(manager.config, old(meta), id) ==>
                meta == old(meta) && failures == old(failures) && manager.clients.clients == old(manager.clients.clients)
      ensures PrimeAsks(manager.config, old(meta), id) ==>
                var r := AltTextManager.SuggestResult(manager.config, manager.clients.config, id, None, world);
                meta == PrimeWrites(manager.config, old(meta), id, r) && failures == old(failures) + Failures(id, r)
      ensures PrimeAsks(manager.config, old(meta), id) ==>
                manager.clients.clients == AltTextManager.CacheAfter(old(manager.clients.clients), manager.clients.config,
                                                                     manager.config, id, None, world)
      ensures Truthy(Str(MetaGet(old(meta), id, AltKey))) ==> MetaGet(meta, id, AltKey) == MetaGet(old(meta), id, AltKey)
    {
      if !Truthy(Field(manager.config, "autosuggest_on_upload")) {
        return;
      }
      var existingAlt := MetaGet(meta, id, AltKey);
      if Truthy(Str(existingAlt)) {
        return;
      }
      var r := manager.Suggest(id, None, world);
      WritePrimed(id, r);
    }

    /** The tail of `primeSuggestion($id)` once the suggestion came back: a
        thrown call fires the failure action; a non-empty suggestion is
        stored and, with `auto_fill_empty_alt`, copied into the alt text. */
    method WritePrimed(id: int, r: Outcome<AltTextManager.Suggestion>)
      modifies this
      ensures meta == PrimeWrites(manager.config, old(meta), id, r) && failures == old(failures) + Failures(id, r)
    {
      if r.Thrown? {
        failures := failures + [(id, r.error)];
        return;
      }
      MetaKeysDistinct();
      if Truthy(Str(r.value.suggestion)) {
        meta := meta[(id, SuggestionKey) := r.value.suggestion];
        if Truthy(Field(manager.config, "auto_fill_empty_alt")) {
          meta := meta[(id, AltKey) := r.value.suggestion];
        }
      }
    }

    /** `handleSuggestion($request)` for the route's `id` and the optional
        `provider` parameter: the ID is int-cast and an empty provider means
        the default; the result is answered and its non-empty suggestion
        stored, and any throwable is answered as a 500 error carrying the
        exception's message, with nothing stored. */
    method HandleSuggestion(idParam: Value, providerParam: Option<string>, world: AltTextManager.World) returns (resp: RestResponse)
      requires manager.clients.Valid()
      modifies this, manager.clients
      ensures manager.clients.Valid()
      ensures var r := AltTextManager.SuggestResult(manager.config, manager.clients.config, ToInt(idParam),
                                                     ProviderParam(providerParam), world);
              resp == Respond(r) && meta == StoreSuggestion(old(meta), ToInt(idParam), r)
      ensures resp.Failure? ==> meta == old(meta) && resp.status == 500 && resp.code == FailureCode
      ensures failures == old(failures)
      ensures manager.clients.clients == AltTextManager.CacheAfter(old(manager.clients.clients), manager.clients.config,
                                                                   manager.config, ToInt(idParam),
                                                                   ProviderParam(providerParam), world)
    {
      var id := ToInt(idParam);
      var provider := ProviderParam(providerParam);
      var r := manager.Suggest(id, provider, world);
      resp := Answer(id, r);
    }

    /** The tail of `handleSuggestion`: the response for the result and the
        stored suggestion. */
    method Answer(id: int, r: Outcome<AltTextManager.Suggestion>) returns (resp: RestResponse)
      modifies this
      ensures resp == Respond(r) && meta == StoreSuggestion(old(meta), id, r) && failures == old(failures)
    {
      if r.Thrown? {
        return Failure(FailureCode, r.error.message, 500);
      }
      if Truthy(Str(r.value.suggestion)) {
        meta := meta[(id, SuggestionKey) := r.value.suggestion];
      }
      resp := Success(r.value);
    }

    /** `addSuggestionField($fields, $post)`: the options are built from the
        configured providers and the default provider, the field's markup
        from the attachment ID, its stored suggestion and those options, and
        the field is placed by the ordering loop and its fallback. */
    method AddSuggestionField(fields: Fields, id: int, render: (int, string, string) -> string) returns (ordered: Fields)
      ensures var options := RenderAll(ProviderOptionList(FieldsOf(Get(manager.config, "providers")),
                                                          DefaultProvider(manager.config)));
              ordered == WithField(fields, AltField, AiField, SuggestionField(render(id, MetaGet(meta, id, SuggestionKey), options)))
    {
      var suggestion := MetaGet(meta, id, SuggestionKey);
      var options := ProviderOptions(FieldsOf(Get(manager.config, "providers")), DefaultProvider(manager.config));
      var field := SuggestionField(render(id, suggestion, options));
      ordered := [];
      for i := 0 to |fields|
        invariant ordered == Copied(fields[..i], AltField, AiField, field)
      {
        assert fields[..i + 1][..i] == fields[..i];
        ordered := Set(ordered, fields[i].0, fields[i].1);
        if fields[i].0 == AltField {
          ordered := Set(ordered, AiField, field);
        }
      }
      assert fields[..|fields|] == fields;
      if !Isset(ordered, AiField) {
        ordered := Set(ordered, AiField, field);
      }
    }
  }
}
