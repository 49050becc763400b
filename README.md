# Alt-text copilot: a verified model

This project models the suggestion pipeline of the WordPress plugin
*wp-media-alt-copilot*. The plugin asks a vision-capable language model
(OpenAI or Anthropic) for alt text for an image in the media library.

The model covers:

- the settings that feed the pipeline: the settings form, the saved option
  and its overrides of the configuration;
- the prompt built from the attachment's data;
- the choice of the image that goes with it, either a public URL or the
  file inlined as a base 64 `data:` URI;
- the provider registry and the two provider clients: the request each one
  sends, and the text each one reads back;
- the cleaning of the model's reply;
- what the upload hook and the REST endpoint write to post meta;
- the ordering of the media form's fields.

It is written in Dafny 4.11, one module per source class plus a few shared
ones:

- `Values` holds PHP values and ordered arrays, and the `??`, `isset`,
  `(int)`, `(string)`, `$a[$k] = $v` and `wp_parse_args` semantics.
- `Text` holds `trim`, `implode`/`explode`, `ucfirst` and `str_replace`.
- `Words` holds whitespace-delimited word counting and `Str::words`.
- `Url` holds the URL decomposition of Appendix B of RFC 3986.
- `Base64` holds the base 64 encoding of section 4 of RFC 4648, with a
  decoder, and the `data:` URI of RFC 2397.

The small definitions of PHP primitives (`Values.Coalesce`, `Values.Field`,
`BaseClient.Post`, `BaseClient.NewClient`) only split their bodies into
cases in their contracts, so they have no row below.

Network transport, the HEAD probe, the file system, `get_post` and the
sanitisers are function parameters of the operations that use them.

The model follows the code where the plugin's design description and its
code differ:

- The prompt builder reads two variables it never assigns. The model
  states that behaviour as written (`PromptBuilder.BuildAsWritten`), but the
  pipeline sends the corrected builder (`PromptBuilder.Build`); see Findings
  and the pipeline's lines under "Left out".
- A settings form without a `vision_mode` field stores `null`, not the
  previous or default mode. The whitelist test looks at the defaulted value
  but stores the raw one.
- `max_words` is clamped to 5..60 only when the settings form is saved.
  `applySettingsOverrides` casts it but does not clamp it, and a
  configured value is used as it is. A non-positive limit turns word
  truncation off.
- The saved record under `vision_enabled` turns vision on or off. It takes
  effect whenever the key exists.

## Model

| member | source | states |
|---|---|---|
| Values.Lookup | src/MediaAltSuggesterServiceProvider.php:164 | a keyed read finds an entry exactly when one has the key, and returns the first such entry |
| Values.Set | src/MediaAltSuggesterServiceProvider.php:164 | after `$a[$k] = $v` the key reads as `v` and every other key reads as before |
| Values.SetKeys | src/MediaAltSuggesterServiceProvider.php:164 | an assignment keeps an existing key in its place and appends a new key at the end |
| Values.SetKeepsUnique | src/MediaAltSuggesterServiceProvider.php:164 | an assignment never duplicates a key |
| Values.MergeLookup | src/Admin/SettingsPage.php:165 | after `wp_parse_args` a key reads as the saved value when one is saved, and as the default otherwise |
| Values.MergeKeepsBaseOrder | src/Admin/SettingsPage.php:165 | the merge keeps the defaults' keys first, in their order |
| Values.IntRoundTrip | src/AltText/PromptBuilder.php:24 | `(int)` reads back every integer `(string)` prints |
| Values.DigitsValueOfDecimal | src/AltText/PromptBuilder.php:24 | the decimal digits printed for a natural number have that number as their value |
| Text.Trim | src/AltText/AltTextManager.php:107 | `trim` cuts away only characters of the set, from both ends, and leaves an infix that neither starts nor ends with one |
| Text.SplitJoin | src/AltText/PromptBuilder.php:49 | lines without a line feed, joined with `"\n"`, split back into the same lines |
| Text.JoinAppend | src/AltText/PromptBuilder.php:49 | joining two non-empty runs of lines puts exactly one separator between them |
| Text.Ucfirst | src/MediaAltSuggesterServiceProvider.php:127 | `ucfirst` keeps the length, upper-cases the first character and keeps the rest |
| Text.RemoveAllPrefix | src/Clients/AnthropicClient.php:53 | removing a needle from a string that starts with it drops that copy and goes on with the rest |
| Text.RemoveAllNoMatch | src/Clients/AnthropicClient.php:53 | removing a needle that occurs nowhere leaves the string unchanged |
| Words.LimitWords | src/AltText/AltTextManager.php:101-103 | `Str::words($s, $n, '')` keeps a prefix of at most `n` words, keeps `s` whole when it has no more, and a cut prefix ends in a character that `rtrim` keeps |
| Words.TakeWordsBound | src/AltText/AltTextManager.php:102 | the words taken from a position are at most the requested number |
| Words.TakeWordsAll | src/AltText/AltTextManager.php:102 | a text with no more words than requested is taken to its end |
| Words.WordsConcat | src/AltText/AltTextManager.php:102 | the word count of a concatenation is the sum of the counts, less a word split across the junction |
| Words.InfixWords | src/AltText/AltTextManager.php:106-107 | no infix of a text has more words than the text |
| Url.BuildUrl | src/AltText/AltTextManager.php:196-205 | `buildUrl` returns null exactly when the host is missing or empty |
| Url.BuildThenParse | src/AltText/AltTextManager.php:182-204 | a URL built from a scheme, host, path and query parses back into exactly those parts, with no user, port or fragment |
| Url.ParsedShape | src/AltText/AltTextManager.php:182 | a parsed path holds no `?` or `#`, a query holds no `#`, and a path after a host is empty or starts with `/` |
| Url.LastIndex | src/AltText/AltTextManager.php:54 | the position found holds the character and no later position does; none is found only when the character is absent |
| Base64.DecodeEncode | src/AltText/AltTextManager.php:149 | decoding the base 64 text of any bytes gives those bytes back |
| Base64.EncodeLength | src/AltText/AltTextManager.php:149 | the encoding has four characters for every started group of three bytes |
| Base64.EncodeAlphabet | src/AltText/AltTextManager.php:149 | the encoding contains only alphabet characters and `=` |
| Base64.SymbolValue | src/AltText/AltTextManager.php:149 | every alphabet character has a six-bit value that encodes back to it |
| Base64.DataUriRoundTrip | src/AltText/AltTextManager.php:152 | the `data:` URI of a media type without a comma reads back as that media type and those bytes |
| BaseClient.GetConfig | src/Clients/BaseClient.php:26-29 | a present, non-null entry is returned, and the default otherwise |
| BaseClient.WithExceptionHandling | src/Clients/BaseClient.php:31-38 | a result passes through; a Guzzle exception becomes a RuntimeException with its message and code; any other exception passes through; no Guzzle exception escapes |
| BaseClient.TrimValue | src/Clients/OpenAiClient.php:33 | `trim` of a string trims it, and exactly an array throws a type error |
| BaseClient.ExtractText | src/Clients/OpenAiClient.php:33 | the reply is `""` when the path is absent and the trimmed value at the path otherwise |
| AiClientFactory.DriverTag | src/Clients/AiClientFactory.php:24 | the driver family is the configured `driver`, or the provider name when it is missing or null |
| AiClientFactory.MakeClient | src/Clients/AiClientFactory.php:19-30 | an unconfigured name throws "not configured"; `openai` and `anthropic` build that client with the name and the provider's configuration when it is an array, and throw the constructor's TypeError when it is a scalar; any other tag throws "not supported" |
| AiClientFactory.ClientFactory.constructor | src/Clients/AiClientFactory.php:7-11 | a new factory has an empty cache, which satisfies its invariant |
| AiClientFactory.ClientFactory.Driver | src/Clients/AiClientFactory.php:13-31 | a cached client is returned without reading the configuration; otherwise the result is what the configuration builds, and a success caches exactly that name; a failure caches nothing; every cached client is the one its name builds |
| OpenAiClient.BuildMessages | src/Clients/OpenAiClient.php:37-72 | a system and a user message; the user content is the prompt alone without an image, the text part and one `image_url` part (`detail` = `auto`) for a `base64` or `url` image, and the text part only for any other image |
| OpenAiClient.Request | src/Clients/OpenAiClient.php:9-29 | a missing or empty key throws before anything is sent; otherwise the request has the configured or default endpoint and model, the bearer header, the messages, and `max_tokens` from the option, the configuration or 120 |
| OpenAiClient.MissingKeyFailsFirst | src/Clients/OpenAiClient.php:9-18 | without a key the call throws the same exception whatever the transport would do |
| OpenAiClient.GenerateWithKey | src/Clients/OpenAiClient.php:17-34 | the reply is the trimmed `choices[0].message.content`, `""` when that path is absent, and a transport exception comes out wrapped |
| AnthropicClient.BuildContent | src/Clients/AnthropicClient.php:40-68 | the text part comes first; a `base64` image adds a `base64` source with `media_type` `image/jpeg`, a `url` image adds a `url` source, and nothing else adds a part |
| AnthropicClient.Headers | src/Clients/AnthropicClient.php:19-23 | the key goes in `x-api-key` and the version is `2023-06-01` |
| AnthropicClient.Body | src/Clients/AnthropicClient.php:24-31 | the body holds the model, `max_tokens`, the fixed system text and one user message with the content |
| AnthropicClient.Request | src/Clients/AnthropicClient.php:9-32 | a missing or empty key throws before anything is sent; otherwise each of endpoint, model and `max_tokens` is the configured value, or the default (`max_tokens` 180), with the headers and body above |
| AnthropicClient.MissingKeyFailsFirst | src/Clients/AnthropicClient.php:9-18 | without a key the call throws the same exception whatever the transport would do |
| AnthropicClient.GenerateWithKey | src/Clients/AnthropicClient.php:17-37 | the reply is the trimmed `content[0].text`, `""` when that path is absent, and a transport exception comes out wrapped |
| AnthropicClient.JpegDataIsPayload | src/Clients/AnthropicClient.php:53 | a JPEG data URI is sent as its base 64 payload alone |
| AnthropicClient.PngDataIsPayload | src/Clients/AnthropicClient.php:53 | a PNG data URI is sent as its base 64 payload alone |
| AnthropicClient.OtherDataIsWholeUri | src/Clients/AnthropicClient.php:53 | a data URI of any other media type is sent whole, prefix included |
| AnthropicClient.PrefixKept | src/Clients/AnthropicClient.php:53 | the prefix of one media type occurs nowhere in the data URI of another |
| PromptBuilder.OrNA | src/AltText/PromptBuilder.php:40-45 | an attachment field prints as its value when truthy and as `N/A` otherwise |
| PromptBuilder.FilterTruthy | src/AltText/PromptBuilder.php:36 | `array_filter` keeps only truthy lines and never adds any |
| PromptBuilder.FilterKeepsTruthy | src/AltText/PromptBuilder.php:36 | `array_filter` over truthy lines removes nothing |
| PromptBuilder.InstructionsPassFilter | src/AltText/PromptBuilder.php:21-36 | every instruction line is non-empty, so the filter keeps them all |
| PromptBuilder.LinesShape | src/AltText/PromptBuilder.php:12-47 | the prompt lines are the six instructions with the chosen on-image-text rule, the custom line exactly when `custom !== ''`, the blank line, the heading, the six fields, the related-content line, and the closing hint last |
| PromptBuilder.InstructionPart | src/AltText/PromptBuilder.php:21-34 | the instruction half of the line sequence above |
| PromptBuilder.AttachmentPart | src/AltText/PromptBuilder.php:38-47 | the attachment half of the line sequence above: exactly ten lines after the instructions |
| PromptBuilder.BuildSplitsIntoLines | src/AltText/PromptBuilder.php:49 | the prompt is exactly its lines joined with line feeds: it splits back into them |
| PromptBuilder.LengthRuleCarriesLimit | src/AltText/PromptBuilder.php:10-24 | the length rule carries the int-cast word limit as a number that reads back as the limit |
| PromptBuilder.BuildFollowsSettings | src/AltText/PromptBuilder.php:25-34 | in the corrected builder the verbatim rule is chosen exactly when the flag is truthy, and the custom line is present exactly when the custom instructions are not `''`, and carries them |
| PromptBuilder.AsWrittenIgnoresSettings | src/AltText/PromptBuilder.php:25-34 | as written, the prompt always has the concise rule and an empty custom line |
| PromptBuilder.AsWrittenDropsCustom | src/AltText/PromptBuilder.php:32-33 | for configured custom instructions `X`, the prompt as written differs from the corrected one |
| SettingsPage.Clamp | src/Admin/SettingsPage.php:131 | the limit is clamped into 5..60 and kept when already inside |
| SettingsPage.PostedMaxWords | src/Admin/SettingsPage.php:130-131 | the posted limit is int-cast, defaults to 20 and ends up in 5..60 |
| SettingsPage.PostedVisionMode | src/Admin/SettingsPage.php:133-135 | a whitelisted mode is kept, any other posted mode gives `auto`, and a missing field gives null |
| SettingsPage.Sanitize | src/Admin/SettingsPage.php:137-144 | the saved record has exactly the six keys in order, with the sanitised text, the clamped limit, the two checkbox flags and the vision mode |
| SettingsPage.SettingKeysUnique | src/Admin/SettingsPage.php:137-144 | a saved record has no duplicate key |
| SettingsPage.SettingsLookup | src/Admin/SettingsPage.php:162-178 | `getSettings` reads each key as saved when saved and as its default otherwise, so all six settings are always present |
| SettingsPage.SaveThenRead | src/Admin/SettingsPage.php:137-166 | after a save, `getSettings` reads every key exactly as the form saved it |
| SettingsPage.SameKeysMerge | src/Admin/SettingsPage.php:165 | merging a record over defaults with the same keys reads as the record |
| SettingsPage.OptionStore.HandleSave | src/Admin/SettingsPage.php:116-150 | a refused user changes nothing; a reset deletes the option; otherwise the sanitised record is stored |
| SettingsPage.PreviewShape | src/Admin/SettingsPage.php:180-197 | the preview has six or seven lines, the seventh exactly when the custom instructions are not empty and then reading `Custom instructions: ` and the custom text; nothing is filtered out, and the verbatim variant follows the flag |
| SettingsPage.PreviewSplitsIntoLines | src/Admin/SettingsPage.php:193-197 | splitting the preview at line feeds gives back its lines when no line holds a line feed of its own |
| SettingsPage.PreviewHead | src/Admin/SettingsPage.php:182-191 | the preview starts with the six instruction lines, with the saved limit and tone |
| SettingsPage.PromptHead | src/AltText/PromptBuilder.php:21-30 | the prompt starts with the six instruction lines, with the configured limit and tone |
| SettingsPage.PreviewMatchesPrompt | src/Admin/SettingsPage.php:182-191 | over the same settings, the preview and the prompt agree on every instruction line except the on-image-text rule |
| SettingsPage.SettingsReachPrompt | src/AltText/PromptBuilder.php:9-10 | the tone and limit the preview shows are those the prompt builder reads |
| SettingsPage.RuleWordingsDiffer | src/Admin/SettingsPage.php:186-188 | each of the preview's on-image-text rules differs from both of the prompt's |
| AltTextManager.StripPreamble | src/AltText/AltTextManager.php:97 | one leading `image of`, `photo of` or `picture of` (ASCII case ignored) and the blanks after it are removed; any other text is kept |
| AltTextManager.PreambleStripsOnce | src/AltText/AltTextManager.php:97 | exactly one phrase is removed: the text after the phrase and its blanks survives whole, even when it starts with the phrase again |
| AltTextManager.StripUrls | src/AltText/AltTextManager.php:106 | removing URL runs never lengthens the text |
| AltTextManager.StripUrlsNoUrl | src/AltText/AltTextManager.php:106 | no `https?:/` followed by a non-blank remains after the removal |
| AltTextManager.StripUrlsWords | src/AltText/AltTextManager.php:106 | the removal adds no word |
| AltTextManager.StripUrlsKeepsClean | src/AltText/AltTextManager.php:106 | a text with no URL is left as it is |
| AltTextManager.NoUrlInfix | src/AltText/AltTextManager.php:107 | an infix of a URL-free text is URL-free |
| AltTextManager.FinalStages | src/AltText/AltTextManager.php:106-107 | after URL removal and the final trim there is no URL and no more words than before |
| AltTextManager.TrimIsInfix | src/AltText/AltTextManager.php:107 | the final trim keeps a text URL-free and adds no word |
| AltTextManager.TrimClean | src/AltText/AltTextManager.php:107 | a text that neither starts nor ends with a trimmed character is left as it is |
| AltTextManager.TruncateSuggestion | src/AltText/AltTextManager.php:94-110 | the cleaned reply holds no URL, neither starts nor ends with a blank, NUL or quote, and has at most `max_words` words when that is positive |
| AltTextManager.CleanReplyUnchanged | src/AltText/AltTextManager.php:94-110 | a reply that is already clean, short enough and without a preamble comes out unchanged |
| AltTextManager.ShortFilename | src/AltText/AltTextManager.php:54 | the short file name is a prefix of the file name |
| AltTextManager.ShortFilenameDropsExtension | src/AltText/AltTextManager.php:54 | exactly the last extension is dropped |
| AltTextManager.Unique | src/AltText/AltTextManager.php:193 | `array_values(array_unique(...))` has no duplicates, the same members, and the same first entry |
| AltTextManager.UniqueBound | src/AltText/AltTextManager.php:193 | removing duplicates never lengthens the list |
| AltTextManager.RawUrls | src/AltText/AltTextManager.php:174-191 | at most two URLs are collected, and none without an attachment URL |
| AltTextManager.CandidateUrls | src/AltText/AltTextManager.php:172-194 | the candidates are distinct and non-empty, at most two, and none without an attachment URL; without a truthy `public_host`, or when the attachment URL parses with no non-empty host, the attachment URL is the only candidate |
| AltTextManager.OriginalFirst | src/AltText/AltTextManager.php:175-178 | the attachment URL, when set, is the first candidate |
| AltTextManager.SameHostNoRewrite | src/AltText/AltTextManager.php:180-183 | a public host equal to the URL's host adds no candidate |
| AltTextManager.RewriteKeepsPathAndQuery | src/AltText/AltTextManager.php:180-205 | a different public host adds a second candidate with the public scheme and host and the original path and query, and no user, port or fragment |
| AltTextManager.RawRewrite | src/AltText/AltTextManager.php:180-191 | with a different public host the rebuilt URL is appended after the original |
| AltTextManager.RewriteBuilds | src/AltText/AltTextManager.php:182-186 | the rewrite replaces host and scheme and keeps the parsed path and query |
| AltTextManager.TwoDistinctKept | src/AltText/AltTextManager.php:193 | two distinct non-empty URLs survive the filter and the deduplication in order |
| AltTextManager.Accept | src/AltText/AltTextManager.php:124-134 | without `check_url` every URL passes; with it a URL passes exactly when the probe answers with a non-zero status below 400 |
| AltTextManager.FirstAccepted | src/AltText/AltTextManager.php:156-163 | the result is the first accepted candidate as a `url` image, and none only when no candidate is accepted |
| AltTextManager.UseUrl | src/AltText/AltTextManager.php:156-163 | the loop with early return gives the first accepted candidate |
| AltTextManager.MakeBase64 | src/AltText/AltTextManager.php:122-154 | nothing without a path, for a missing file, above the byte limit (default 1500000) or for a failed read; otherwise the `data:` URI of the file's bytes with the attachment's media type (`application/octet-stream` when it has none) |
| AltTextManager.ReadableFileInlined | src/AltText/AltTextManager.php:136-154 | an existing, readable file within the limit is always inlined |
| AltTextManager.InlinedImageDecodes | src/AltText/AltTextManager.php:148-153 | the inlined URI reads back as the media type and the file's bytes |
| AltTextManager.ImageSource | src/AltText/AltTextManager.php:112-170 | vision off gives no image; otherwise there is no image only when both paths fail; `base64` mode prefers the file and every other mode prefers the URL; the image is one of the two |
| AltTextManager.ResolveImageSource | src/AltText/AltTextManager.php:112-170 | the method picks exactly the image `ImageSource` describes |
| AltTextManager.ClientName | src/AltText/AltTextManager.php:89 | a truthy provider is used as given; otherwise the configured `default_provider` when it is present and not null, and `openai` when it is not (an array there is `NameIsArray`, handled by the callers) |
| AltTextManager.SuggestResult | src/AltText/AltTextManager.php:18-43 | a missing post or a non-attachment throws "Invalid attachment ID."; for an attachment, a falsy provider with an array `default_provider` throws `driver()`'s TypeError, and otherwise the factory's exception and then the client's exception are passed through, and a reply `t` gives the suggestion `truncateSuggestion(t)`; a result carries the resolved provider, the prompt built from the context, the image mode (`none` without an image) and a URL-free suggestion within the word limit |
| AltTextManager.SuggestFor | src/AltText/AltTextManager.php:25-42 | past the attachment check, an array name throws `driver()`'s TypeError; otherwise the factory's and then the client's exception pass through, and a reply `t` gives a result whose suggestion is `truncateSuggestion(t)`, with the resolved provider, the built prompt and the image mode |
| AltTextManager.SuggestFromOpenAi | src/AltText/AltTextManager.php:26-35 | for an attachment whose provider builds an OpenAI client with a key, a transport answering `choices[0].message.content` with `X` gives the suggestion `truncateSuggestion(trim(X))`, with the resolved provider and the built prompt |
| AltTextManager.SuggestFromAnthropic | src/AltText/AltTextManager.php:26-35 | the same through an Anthropic client whose transport answers `content[0].text` with `X` |
| AltTextManager.CacheAfter | src/AltText/AltTextManager.php:20-26 | `suggest` leaves the factory's cache as it was for a refused post, an array name, a cached name or a failed build, and otherwise adds exactly the resolved name with the client it built |
| AltTextManager.Manager.constructor | src/AltText/AltTextManager.php:11-16 | the manager keeps its factory and configuration |
| AltTextManager.Manager.Suggest | src/AltText/AltTextManager.php:18-43 | the method returns what `SuggestResult` describes, keeps the factory's invariant, and leaves the factory's cache as `CacheAfter` gives it |
| ServiceProvider.Put | src/MediaAltSuggesterServiceProvider.php:241-252 | an override writes its key and changes no other |
| ServiceProvider.PutFour | src/MediaAltSuggesterServiceProvider.php:239-254 | four overrides of distinct keys write exactly those keys |
| ServiceProvider.PromptOverrides | src/MediaAltSuggesterServiceProvider.php:239-254 | `tone` and `max_words` (int-cast, not clamped) are written when set and not null, `custom_instructions` (string-cast) and `force_verbatim_text` (bool-cast) whenever the key exists, and every other prompt entry stays |
| ServiceProvider.VisionOverrides | src/MediaAltSuggesterServiceProvider.php:256-263 | `enabled` is the saved flag cast to bool, `mode` is replaced only by a non-empty saved mode, and every other entry stays |
| ServiceProvider.ApplyOverrides | src/MediaAltSuggesterServiceProvider.php:231-264 | an empty record leaves the configuration unchanged; otherwise the prompt section is overridden, and the vision section only when `vision_enabled` exists; no other section changes |
| ServiceProvider.OverridesAsWrites | src/MediaAltSuggesterServiceProvider.php:238-263 | the overrides are exactly the two `config->set` writes in source order |
| ServiceProvider.ConfigRepository.ApplySettingsOverrides | src/MediaAltSuggesterServiceProvider.php:231-264 | the repository's new items are the overrides of the stored option over the old items |
| ServiceProvider.SavedSettingsReachPipeline | src/MediaAltSuggesterServiceProvider.php:231-264 | after a save and the overrides, the prompt builder reads the saved clamped limit and tone, the prompt section holds the saved flag and custom instructions, vision follows the checkbox, and a posted mode replaces the configured one |
| ServiceProvider.SavedPromptReachesBuilder | src/MediaAltSuggesterServiceProvider.php:239-254 | the prompt half of the above |
| ServiceProvider.SavedVisionReachesManager | src/MediaAltSuggesterServiceProvider.php:256-263 | the vision half of the above |
| ServiceProvider.StoreSuggestion | src/MediaAltSuggesterServiceProvider.php:79-81 | a truthy suggestion is stored under `_ai_alt_suggestion`; a failure or an empty suggestion writes nothing; no other meta changes |
| ServiceProvider.PrimeWrites | src/MediaAltSuggesterServiceProvider.php:104-115 | a failure writes nothing; a non-empty suggestion is stored, and also written as alt text exactly when `auto_fill_empty_alt` is set; no other meta changes |
| ServiceProvider.Failures | src/MediaAltSuggesterServiceProvider.php:113-115 | the failure action fires exactly when the suggestion throws, with the attachment and the exception |
| ServiceProvider.ProviderParam | src/MediaAltSuggesterServiceProvider.php:75 | a falsy provider parameter becomes null and any other is kept |
| ServiceProvider.Respond | src/MediaAltSuggesterServiceProvider.php:83-90 | a result is answered as it is; any exception becomes `media_alt_suggestion_failed` with its message and status 500 |
| ServiceProvider.Plugin.PrimeSuggestion | src/MediaAltSuggesterServiceProvider.php:93-116 | with autosuggest off or alt text present nothing changes and no client is built; otherwise the meta and the failure log are those for the suggestion and the factory's cache is as `CacheAfter` gives it; existing alt text is never overwritten |
| ServiceProvider.Plugin.HandleSuggestion | src/MediaAltSuggesterServiceProvider.php:72-91 | the response answers the suggestion for the int-cast ID and the cleaned provider; only its suggestion is stored, a failure is a 500 that writes nothing, and the factory's cache is as `CacheAfter` gives it |
| ServiceProvider.OptionListShape | src/MediaAltSuggesterServiceProvider.php:124-129 | one option per configured provider, in configuration order |
| ServiceProvider.SelectedIsDefault | src/MediaAltSuggesterServiceProvider.php:125-128 | an option is selected exactly when its provider is the default; at most one is, and one is exactly when the default is configured |
| ServiceProvider.ProviderOptions | src/MediaAltSuggesterServiceProvider.php:124-129 | the loop renders the option list in order |
| ServiceProvider.Inserted | src/MediaAltSuggesterServiceProvider.php:162-176 | the form with the new field right behind the anchor, or appended when there is no anchor, and otherwise unchanged |
| ServiceProvider.InsertedKeepsForm | src/MediaAltSuggesterServiceProvider.php:162-176 | the insertion keeps every original entry in order, keeps keys unique, and holds the field once |
| ServiceProvider.CopiedIsPartlyInserted | src/MediaAltSuggesterServiceProvider.php:163-169 | the ordering loop copies the form and puts the field right behind the anchor |
| ServiceProvider.WithFieldIsInserted | src/MediaAltSuggesterServiceProvider.php:162-176 | the loop and its fallback give exactly the insertion |
| ServiceProvider.PlacesFieldAfterAlt | src/MediaAltSuggesterServiceProvider.php:162-176 | the suggestion field lands right after `image_alt`, or at the end without it; removing it gives back the original form, and it occurs exactly once |
| ServiceProvider.Plugin.AddSuggestionField | src/MediaAltSuggesterServiceProvider.php:118-177 | the form is ordered by the loop and its fallback, with a field rendered from the attachment, its stored suggestion and the provider options |

## Left out

- Network transport: Guzzle's `post` and `wp_remote_head` are function parameters, and `json_decode` output is taken as already-parsed values.
- The file system: `file_exists`, `filesize` and `file_get_contents` are function parameters.
- The WordPress accessors behind `buildContext` and `summarizePost`, such as `get_the_title`, `get_attached_file`, `get_permalink` and `wp_trim_words`. The context record is an input returned by the `get_post` parameter. Only the short-file-name regex is modelled.
- `sanitize_text_field` and `sanitize_textarea_field` are function parameters; escaping and translation functions are treated as the identity.
- The capability check and the nonce of `handleSave` are one boolean parameter. `redirectUrl`, `wp_safe_redirect` and `exit` are not modelled.
- `renderPage`, the field markup of `addSuggestionField` (a parameter of it), the inline JavaScript, asset enqueueing, menus, notices and the `boot`/`register` wiring have no logic to verify here.
- Object identity: a cached client is the same value, not the same instance.
- AiClientFactory.ClientFactory.Driver: the cache invariant states that each cached client is the one its name builds, not that it is the identical object.
- AltTextManager.SuggestResult: the result's prompt and the request are those of the corrected builder `PromptBuilder.Build`, not of `PromptBuilder.BuildAsWritten`, which the code runs and which drops the custom instructions and the verbatim rule (see Findings).
- AltTextManager.SuggestFor: sends and returns the corrected `PromptBuilder.Build` prompt, not the as-written one, for the same reason.
- AltTextManager.SuggestFromOpenAi: the request it premises and the prompt it returns are the corrected `PromptBuilder.Build`'s, not the as-written one.
- AltTextManager.SuggestFromAnthropic: the request it premises and the prompt it returns are the corrected `PromptBuilder.Build`'s, not the as-written one.
- AltTextManager.Manager.Suggest: sends and returns the corrected `PromptBuilder.Build` prompt, not the as-written one.
- ServiceProvider.Plugin.HandleSuggestion: the response's prompt is the corrected builder's, as for `AltTextManager.SuggestResult`.
- AltTextManager.NameIsArray: `driver()`'s TypeError carries PHP's message without the "called in <file> on line <n>" suffix, which depends on the installation path.
- AiClientFactory.MakeClient: the TypeError for a scalar provider configuration carries PHP's message without the "called in <file> on line <n>" suffix, which depends on the installation path.
- OpenAiClient.Request: the float `temperature` of 0.4 is not part of the modelled body, since the model has no floats.
- Words.LimitWords: whitespace is the six ASCII blanks that `\s` matches without the `u` flag; Unicode blanks are not modelled. A limit above 65535 is cut like any other, while PCRE rejects such a repeat count in `Str::words`'s pattern and the text then comes back whole; `applySettingsOverrides` does not clamp `max_words`, so a configured limit that large is not modelled faithfully.
- Values.ToInt: parses leading blanks, a sign and decimal digits only; hexadecimal, octal, exponent and overflow forms are not modelled.
- Url.BuildThenParse: `wp_parse_url` is modelled by the decomposition of Appendix B of RFC 3986, not by PHP's own parser.
- ServiceProvider.ApplyOverrides: a stored option or section that is not an array is treated as an empty one.
- ServiceProvider.ProviderParam: a provider parameter that is not a string is not modelled.
- ServiceProvider.Plugin.AddSuggestionField: a form that already has an `ai_alt_suggestion` entry is described only by the loop's specification function, without a placement lemma.
- ServiceProvider.Plugin.PrimeSuggestion: "never calls `suggest`" is stated as "the provider cache is unchanged", since that is the only state `suggest` touches.
- Integer-like array keys: PHP casts keys such as `"1"` to integers; the model keeps every key a string.

## Findings

| source | as written | input that shows it | evidently intended | confidence | as-written member | corrected member |
|---|---|---|---|---|---|---|
| src/AltText/PromptBuilder.php:25-34 | `$forceVerbatim` and `$custom` are never assigned, so both read as null: the concise rule is always used and `Custom instructions: ` is always appended with nothing after it (modelled by `PromptBuilder.BuildAsWritten`) | a configuration whose `prompt.custom_instructions` is `X`, or whose `force_verbatim_text` is true | read both from `config['prompt']`, as the settings preview does (src/Admin/SettingsPage.php:186, :193); this is `PromptBuilder.Build`, which the rest of the model uses | not executed | PromptBuilder.AsWrittenDropsCustom | PromptBuilder.BuildFollowsSettings |
