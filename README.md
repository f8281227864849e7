# Hrash-Web design generator: a verified model of its core

Hrash-Web turns a short text prompt, optionally with a reference image, into a design: a site
mock-up, a logo, a business card, a poster and so on. The browser posts the design type, the
prompt and the image to a serverless function. That function asks a text model for a JSON design
following the type's schema. It then walks the JSON and, wherever an object has a field whose name
ends in "prompt" holding a non-empty string, generates an image for it and stores the reference
under a companion key ending in "Url". The browser shows the result under a title it derives, and
can download it as a PNG, or as a PDF for a site.

This project models that core in Dafny and proves what it does:

- `JsText`: the JavaScript string operations the code depends on. These are `toLowerCase`
  (ASCII letters only), `endsWith`, `includes`, `trim` with ECMA-262 whitespace, the replacement
  of `\s` and the printing of integers.
- `Json`: the JSON values the text model produces and the handler returns.
- `Catalog`: the eleven design types with their ids, titles and task descriptions.
- `AspectRatio`: `getAspectRatioForAsset`, the image shape of each prompt field.
- `Retry`: `retryRequest` as a counted loop (`RetryRequest`), specified by a function of the
  script of attempt outcomes (`RetrySpec`). The function records the calls made and the sleeps.
- `ImageResolver`: `generateImage`, a data URI on success and a placeholder of the requested
  shape on any failure.
- `PromptResolution`: `processImagePrompts` as imperative methods over a copied map. They are
  specified by the relation `IsResolution`, because concurrent completions make the result depend
  on their order when two prompt keys share a companion key.
- `ResolutionProperties`: facts about that relation. The result is unique without such clashes.
  Completeness and non-destructiveness hold at any depth along paths that pass through no
  companion key that is overwritten (completeness also needs the absence of clashes): a value
  already stored under a companion key is replaced, and what lay below it is gone, as
  `OverwrittenCompanionLosesPath` shows. A business-card example shows the properties.
- `Handler`: the HTTP handler. It is a straight-line method (`Handle`), specified by the function
  `Decide` and its lemmas.
- `App`: the browser side. It holds the title, file-name and orientation rules, the input check,
  and a class `AppState` whose methods are `handleGenerate`, `resetState` and the download
  handlers.

The text model, the image model, `JSON.parse`, the canvas rendering and the generator call seen
from the browser are parameters of the methods that use them. They are never modelled as
behaviour of their own.

## Model

| member | source | states |
|---|---|---|
| JsText.Lower | netlify/functions/generate.ts:45 | lower-casing keeps the length, leaves no upper-case letter, and keeps each character up to case |
| JsText.LowerIdempotent | netlify/functions/generate.ts:45 | lower-casing a lower-cased string changes nothing |
| JsText.LowerEqualIff | netlify/functions/generate.ts:45 | two strings lower-case alike exactly when they agree character by character up to case, so the tests on `key.toLowerCase()` are case-insensitive |
| JsText.ContainsHasChar | netlify/functions/generate.ts:45 | every character of a substring occurs in a string that includes it |
| JsText.Leading | App.tsx:82 | the count of leading characters of a string that are all whitespace, with the next character not whitespace |
| JsText.Trailing | App.tsx:82 | the count of trailing characters of a string that are all whitespace, with the character before them not whitespace |
| JsText.TrimBounds | App.tsx:82 | `trim()` is a slice of the string whose outside parts are whitespace and whose ends are not |
| JsText.TrimIsInnerSlice | netlify/functions/generate.ts:150 | the trimmed text is an inner slice with whitespace outside, and it starts and ends with non-whitespace |
| JsText.TrimEmptyIff | App.tsx:82 | the trimmed string is empty exactly when the string is all whitespace |
| JsText.ReplaceWhitespace | App.tsx:144 | the replacement keeps the length, replaces each whitespace character and keeps every other one |
| JsText.DecimalString | netlify/functions/generate.ts:80-81 | the spelling of a number is a non-empty string of digits that denotes that number, with no leading zero |
| Json.Get | netlify/functions/generate.ts:95 | a property is present exactly for an object that has the key; it is that key's value, lies strictly inside the object, and is what the one-step path to the key reaches |
| Json.NonEmptyString | App.tsx:50-58 | a property is returned exactly when it is a non-empty string, and then it is that property's value |
| Catalog.FindIn | constants/design-types.ts:283-383 | `find` by id returns the first entry of the list with that id, and nothing exactly when no entry has it |
| Catalog.FindKnown | constants/design-types.ts:283-383 | the lookup succeeds exactly for a catalog id and returns a titled catalog entry with that id |
| Catalog.TitledEntries | constants/design-types.ts:283-383 | every catalog entry has a non-empty title |
| Catalog.IdsDistinct | constants/design-types.ts:283-383 | the catalog has eleven entries and no id occurs twice |
| AspectRatio.RatioFor | netlify/functions/generate.ts:44-62 | definition of `getAspectRatioForAsset`; specified by `AvatarOverride`, `RatioFollowsTable` and `RatioIgnoresOtherKeys` |
| AspectRatio.AvatarOverride | netlify/functions/generate.ts:45 | a key containing "avatar" in any case gets 1:1 whatever the design type |
| AspectRatio.RatioFollowsTable | netlify/functions/generate.ts:47-61 | away from avatar keys the ratio is the table entry of the type, and 1:1 for any type off the table |
| AspectRatio.RatioIgnoresOtherKeys | netlify/functions/generate.ts:44-62 | away from avatar keys the key does not affect the ratio |
| AspectRatio.UntabledCatalogTypesAreSquare | netlify/functions/generate.ts:59-60 | the catalog types off the table are website, logo and article-cover, and they are 1:1 |
| AspectRatio.NoVNoAvatar | netlify/functions/generate.ts:45 | a key without the letter v in either case is no avatar key |
| AspectRatio.BackgroundIsNoAvatarKey | netlify/functions/generate.ts:45 | `backgroundImagePrompt` is no avatar key |
| AspectRatio.AvatarPromptIsSquare | netlify/functions/generate.ts:45 | `avatarPrompt` gets 1:1 for every design type |
| AspectRatio.YoutubeBackgroundIsWide | netlify/functions/generate.ts:48-50 | a YouTube cover's background gets 16:9 |
| AspectRatio.BusinessCardBackgroundIsTall | netlify/functions/generate.ts:53-58 | a business card's background gets 9:16 |
| Retry.Pow2 | netlify/functions/generate.ts:25 | definition of `Math.pow(2, i)`; its contract only bounds it below by one |
| Retry.BackoffStep | netlify/functions/generate.ts:25-26 | the schedule of n + 1 sleeps is that of n sleeps followed by delay·2^n |
| Retry.BackoffDoubles | netlify/functions/generate.ts:25-26 | the schedule starts at the base delay and each sleep doubles the one before |
| Retry.IsRetryable | netlify/functions/generate.ts:20 | definition: status `UNAVAILABLE` or a message including "503"; characterised by `RetryShape` and `TwoFailuresThenSuccess` |
| Retry.RunFrom | netlify/functions/generate.ts:14-31 | definition: the loop from attempt i on; characterised by `RunFromShape` and `RunFromDependsOnLater` |
| Retry.RetrySpec | netlify/functions/generate.ts:13-33 | definition: the whole of `retryRequest`; characterised by `RetryShape`, `NoAttemptsAllowed` and `AlwaysUnavailable`, and implemented by `RetryRequest` |
| Retry.RetryRequest | netlify/functions/generate.ts:13-33 | the loop's outcome, call count and sleeps are those of the specification `RetrySpec` |
| Retry.RunFromShape | netlify/functions/generate.ts:14-31 | from attempt i on: at most the remaining attempts; every earlier call failed retryably and was followed by the sleep delay·2^k; the last call decides |
| Retry.RetryShape | netlify/functions/generate.ts:13-33 | 1 to maxRetries calls; each sleep delay·2^i follows a retryable failure; a value is returned and a non-retryable error rethrown at once; "overloaded" is thrown only for the last attempt, without sleeping |
| Retry.NoAttemptsAllowed | netlify/functions/generate.ts:14-32 | with maxRetries ≤ 0 no call is made and "Request failed after multiple retries." is thrown |
| Retry.RunFromDependsOnLater | netlify/functions/generate.ts:14-31 | the run from attempt i depends only on the outcomes of attempts i and later |
| Retry.AlwaysUnavailable | netlify/functions/generate.ts:20-24 | a request unavailable every time throws "overloaded" after maxRetries calls and maxRetries − 1 sleeps |
| Retry.TwoFailuresThenSuccess | netlify/functions/generate.ts:20-26 | an UNAVAILABLE status, then a 503 message, then a value: the value after three calls and sleeps of 1000 and 2000 ms |
| ImageResolver.Placeholder | netlify/functions/generate.ts:80-81 | definition of the placeholder URL; specified by `PlaceholderFitsRatio` and `PlaceholdersDiffer` |
| ImageResolver.ImageReference | netlify/functions/generate.ts:76-81 | definition of the reference made from a retried request's outcome; specified by `ReferenceKinds` |
| ImageResolver.ImageFor | netlify/functions/generate.ts:64-83 | definition of `generateImage` as a function of the backend; implemented by `GenerateImage`, specified by `ReferenceKinds` and `AlwaysFailingBackend` |
| ImageResolver.GenerateImage | netlify/functions/generate.ts:64-83 | the reference is that of the retried image request, and it is a data URI or the placeholder of the ratio |
| ImageResolver.PlaceholderFitsRatio | netlify/functions/generate.ts:80 | the placeholder's width:height equals the ratio and the URL spells its size in decimal |
| ImageResolver.SizeDigits | netlify/functions/generate.ts:80 | the decimal spellings of 800, 720 and 1280 |
| ImageResolver.ReferenceKinds | netlify/functions/generate.ts:76-81 | a reference starts with the data prefix exactly when an image came back, and then carries its bytes; otherwise it is the placeholder |
| ImageResolver.PlaceholdersDiffer | netlify/functions/generate.ts:80-81 | different ratios give different placeholders |
| ImageResolver.AlwaysFailingBackend | netlify/functions/generate.ts:78-81 | a backend that always fails gives the placeholder of the ratio |
| PromptResolution.IsPromptKey | netlify/functions/generate.ts:101 | definition of `key.toLowerCase().endsWith('prompt')`; used by `CompanionKeyShape` and `NoPromptKeyWithoutFinalT` |
| PromptResolution.UrlKey | netlify/functions/generate.ts:102 | definition of `key.replace(/prompt$/i, 'Url')`; specified by `CompanionKeyShape`, `CompanionKeysCollide` and the example lemmas |
| PromptResolution.IsResolution | netlify/functions/generate.ts:85-116 | definition of what the walk may return; implemented by `ProcessImagePrompts`, specified by the `ResolutionProperties` lemmas |
| PromptResolution.CompanionKeyShape | netlify/functions/generate.ts:102 | a companion key is the prefix before "prompt" plus "Url", differs from the prompt key and is no prompt key |
| PromptResolution.CompanionKeysCollide | netlify/functions/generate.ts:102 | two prompt keys share a companion key exactly when their prefixes before the suffix agree |
| PromptResolution.CompanionKeyExamples | netlify/functions/generate.ts:102 | imagePrompt, avatarPrompt and colorLogoPrompt map to imageUrl, avatarUrl and colorLogoUrl |
| PromptResolution.BackgroundCompanionKey | netlify/functions/generate.ts:102 | backgroundImagePrompt maps to backgroundImageUrl |
| PromptResolution.ResolutionKeepsKind | netlify/functions/generate.ts:85-116 | arrays stay arrays, objects stay objects, scalars (null included) are returned as they are |
| PromptResolution.ProcessImagePrompts | netlify/functions/generate.ts:85-116 | the walk's result is a resolution of the input under the backend's image references |
| PromptResolution.ResolveObject | netlify/functions/generate.ts:89-114 | the object case resolves the object |
| PromptResolution.ResolveChildren | netlify/functions/generate.ts:90-98 | the copy keeps the keys, and each value is the resolution of the old one (containers) or the old one (scalars) |
| PromptResolution.CompanionsStep | netlify/functions/generate.ts:100-110 | visiting one more key adds its companion exactly when it is a prompt field |
| PromptResolution.PromptKeyIsNoCompanion | netlify/functions/generate.ts:102 | a prompt key is never a companion key |
| PromptResolution.LayoutSkip | netlify/functions/generate.ts:101 | skipping a key that is no prompt field keeps the loop's layout invariant |
| PromptResolution.LayoutWrite | netlify/functions/generate.ts:101-107 | writing one companion keeps the loop's layout invariant |
| PromptResolution.RecordsWrite | netlify/functions/generate.ts:103-107 | writing one companion keeps the invariant that each written companion holds its field's image |
| PromptResolution.UnvisitedKey | netlify/functions/generate.ts:101 | the second loop's test on the copy agrees with the test on the original object |
| PromptResolution.AllVisited | netlify/functions/generate.ts:100-113 | once every key is visited the object level is resolved and every other key keeps its copied value |
| PromptResolution.WriteCompanions | netlify/functions/generate.ts:100-113 | the second loop resolves the level and changes nothing but companion keys |
| PromptResolution.VisitKey | netlify/functions/generate.ts:101-108 | one iteration keeps the loop invariants and writes the companion exactly for a prompt field |
| ResolutionProperties.CompanionIsFieldImage | netlify/functions/generate.ts:103-107 | without a clash, each prompt field's companion holds that field's image |
| ResolutionProperties.NewKeysAreCompanions | netlify/functions/generate.ts:90-106 | every input key survives and every new key is a companion key |
| ResolutionProperties.ResolutionUnique | netlify/functions/generate.ts:85-116 | without a clash anywhere the walk has a single result |
| ResolutionProperties.AtConcat | netlify/functions/generate.ts:85-116 | following a path p + q is following p, then q |
| ResolutionProperties.ResolutionAlongPath | netlify/functions/generate.ts:86-98 | along an intact path the result has a value wherever the input does, and it is the resolution of the input's value |
| ResolutionProperties.NoClashAlongPath | netlify/functions/generate.ts:85-116 | the absence of clashes holds of every value inside the document |
| ResolutionProperties.DeepCompleteness | netlify/functions/generate.ts:100-110 | along a path that passes through no overwritten companion key, and without clashes, each prompt field's companion holds the image of its text in the shape of its key and design type |
| ResolutionProperties.DeepPreservation | netlify/functions/generate.ts:86-115 | along a path that passes through no overwritten companion key, the keys of objects survive, arrays keep their length, and scalars are unchanged |
| ResolutionProperties.OverwrittenCompanionLosesPath | netlify/functions/generate.ts:106 | an object already stored under a companion key is overwritten, so a path below it disappears |
| ResolutionProperties.AtTwoKeys | netlify/functions/generate.ts:95 | following two keys is reading a property of a property |
| ResolutionProperties.NoCompanionForUnusablePrompt | netlify/functions/generate.ts:101 | a prompt key with an empty or non-string value gets no companion |
| ResolutionProperties.PromptKeysStep | netlify/functions/generate.ts:101 | visiting one more key adds it to the prompt fields exactly when it is one |
| ResolutionProperties.CompanionCount | netlify/functions/generate.ts:100-110 | without a clash there are as many companion keys as prompt fields |
| ResolutionProperties.KeyCount | netlify/functions/generate.ts:90-106 | without a clash or existing companions, an object gains exactly one key per prompt field |
| ResolutionProperties.NoPromptKeyWithoutFinalT | netlify/functions/generate.ts:101 | a key not ending in t or T is no prompt key |
| ResolutionProperties.SingleCompanion | netlify/functions/generate.ts:100-110 | an object with one prompt key has exactly that key's companion |
| ResolutionProperties.SinglePromptObject | netlify/functions/generate.ts:90-113 | an object of scalars with one prompt field gains exactly its companion and keeps every value |
| ResolutionProperties.BusinessCardShape | netlify/functions/generate.ts:101-103 | the example card has one prompt field, whose companion is backgroundImageUrl and whose shape is 9:16 |
| ResolutionProperties.BusinessCardExample | netlify/functions/generate.ts:85-116 | the card gains backgroundImageUrl holding the 9:16 image of its prompt and keeps its other fields |
| ResolutionProperties.FailingBackendGivesPlaceholders | netlify/functions/generate.ts:78-107 | with a backend that always fails, every companion holds the placeholder of its shape |
| Handler.ServerMessage | netlify/functions/generate.ts:176 | the 500 message is the error's own message or the fixed fallback, and never empty |
| Handler.Decide | netlify/functions/generate.ts:118-179 | definition of the handler's decision; implemented by `Handle`, specified by `DecisionShape`, `AnswerChecks` and the other `Handler` lemmas |
| Handler.Handle | netlify/functions/generate.ts:118-179 | the handler makes the decided number of text calls; it answers every rejection with its status and `{error}`, and a design with 200, the JSON header and a resolution of the design |
| Handler.CatalogEntryKnown | netlify/functions/generate.ts:126 | the lookup succeeds exactly for a string that is a catalog id, and returns that entry |
| Handler.OnlyPostIsServed | netlify/functions/generate.ts:119-121 | any method but POST gets 405 "Method Not Allowed" and no text call |
| Handler.AskShape | netlify/functions/generate.ts:140-162 | the text request is made 1 to 3 times and ends in a 500 with a message, or in the parsed design |
| Handler.DecisionShape | netlify/functions/generate.ts:118-179 | the text model is called exactly for an accepted request, at most 3 times; every rejection is a non-empty 400, 405 or 500; a design is passed on only under a catalog id |
| Handler.InvalidDesignType | netlify/functions/generate.ts:126-129 | the 400 is given exactly when the body reads but names no catalog id; it names the value, and no text call is made |
| Handler.InvalidStringType | netlify/functions/generate.ts:128 | an unknown string id appears verbatim in the 400 message |
| Handler.AnswerChecks | netlify/functions/generate.ts:150-162 | a missing or blank text gives the "empty answer" message, an unparseable one the distinct "malformed answer" message, and otherwise the parsed trimmed text is the design |
| Handler.OverloadedTextModel | netlify/functions/generate.ts:140-148 | an always-unavailable text model gets 3 calls and a 500 with the "overloaded" message |
| Handler.FatalTextError | netlify/functions/generate.ts:172-177 | a non-retryable first failure gets 1 call and a 500 with its message |
| Handler.RequestContents | netlify/functions/generate.ts:131-148 | the model and response type are fixed, the schema is the entry's, and the contents are the text alone or text plus inline image exactly when `image` is truthy |
| Handler.UserPromptFrame | netlify/functions/generate.ts:132 | the request text quotes the prompt after "User Prompt: " and ends with the task description |
| Handler.PromptRecoverable | netlify/functions/generate.ts:132 | for one design type, different prompts give different request texts |
| Handler.PromptInterpolation | netlify/functions/generate.ts:132 | a string prompt prints as itself and a missing one as "undefined" |
| Handler.ServerMessageChoice | netlify/functions/generate.ts:176 | a non-empty message is kept, and a missing or empty one is replaced by the fallback |
| App.IsWebsiteData | App.tsx:42-44 | definition of `designType === 'website'`; used by `HandleDownload` to choose the PDF path |
| App.AssetTitle | App.tsx:46-61 | every title is non-empty |
| App.TitlePriority | App.tsx:46-58 | the site title for sites, then a non-empty title, then "Визитка: " + name, then headline |
| App.CatalogFallback | App.tsx:59-60 | without those fields a known type is titled by its catalog entry, and any other type by "Сгенерированный Дизайн" |
| App.PngFileName | App.tsx:144 | definition of the PNG name; specified by `PngFileNameShape` and `PngFileNameKeepsPlainTitle` |
| App.PngFileNameShape | App.tsx:144 | the PNG name ends in ".png", has no whitespace before it, and keeps every other character of the title in place |
| App.PngFileNameKeepsPlainTitle | App.tsx:144 | a title without whitespace is used as it is |
| App.PdfOrientation | App.tsx:175 | definition of the orientation choice; specified by `OrientationRule` |
| App.OrientationRule | App.tsx:175 | landscape exactly when width > height; a square canvas is portrait; swapping the sides of a non-square canvas flips it |
| App.GenerateCheck | App.tsx:78-85 | definition of the input check; specified by `GenerateCheckIff` |
| App.GenerateCheckIff | App.tsx:78-85 | the generator is called exactly with a type selected and a non-blank prompt or an image; a missing type is reported first |
| App.PngOutcome | App.tsx:128-154 | definition of what `handleDownloadImage` ends with; specified by `DownloadOutcomes` |
| App.PdfOutcome | App.tsx:156-188 | definition of what `handleDownloadPdf` ends with; specified by `DownloadOutcomes` and `MissingThemeFailsPdf` |
| App.DownloadOutcomes | App.tsx:128-188 | the PNG path saves under the title-derived name, alerts exactly without the viewer, or fails with the PNG error; the PDF path saves a page oriented by its canvas, alerts exactly without prototype or libraries, or fails with the PDF error; an error is stored exactly on failure |
| App.MissingThemeFailsPdf | App.tsx:162-187 | a site without a theme fails the PDF download with the PDF error once the libraries are loaded |
| App.AppState.constructor | App.tsx:65-72 | the initial state: empty prompt, nothing selected, shown, pending or attached |
| App.AppState.BeginGenerate | App.tsx:77-92 | a failed check sets only the error; otherwise loading starts, the design and error are cleared, and the call carries the type, prompt and image part |
| App.AppState.FinishGenerate | App.tsx:93-100 | a design is stored, or the error message is stored and the design cleared; loading stops |
| App.AppState.HandleGenerate | App.tsx:77-101 | the whole handler: the check, then the call, then the stored design or message, with loading stopped |
| App.AppState.ResetState | App.tsx:190-199 | design, selection, prompt, error and image are cleared, the preview URL is revoked, and nothing else changes |
| App.AppState.DownloadImage | App.tsx:128-154 | the download is `PngOutcome` for the browser and design; an alert changes nothing, otherwise downloading ends and only a failure's message is stored |
| App.AppState.DownloadPdf | App.tsx:156-188 | the download is `PdfOutcome` for the browser and design; an alert changes nothing, otherwise downloading ends and only a failure's message is stored |
| App.AppState.HandleDownload | App.tsx:118-126 | nothing without a design; for a site exactly the PDF path's outcome and new state, for any other design exactly the PNG path's |

## Left out

- The text and image model calls (`generateContent`, `generateImages`) are parameters giving the outcome of the n-th call with a request. Network, quotas and answer contents are not modelled.
- `JSON.parse` is a parameter returning a value or the SyntaxError's message. `JSON.stringify` of the response body is not modelled: the body is kept as a JSON value.
- The message of the TypeError thrown when the request body is `null` is a parameter. An event with no body at all is not modelled.
- How a number prints inside a template literal is a parameter (`numberText`). JSON numbers are reals, and NaN and infinities do not occur.
- The API key check at module load is a deployment setting outside the handler.
- `Promise.all` is sequentialised. The model visits the keys of an object in an unspecified order, which covers the source's key order for the calls and its arbitrary completion order for the writes. `IsResolution` admits every completion order for clashing companion keys. `ResolutionUnique` needs the absence of clashes.
- The model uses one image outcome per prompt, ratio and attempt number. Two identical prompts in one document therefore get the same reference, where the real backend could answer them differently.
- Sleeps of the retry loop become a list of delays; time is not modelled.
- `toLowerCase` is modelled on ASCII letters only. A key with a non-ASCII letter whose lower-case form is ASCII (such as the Kelvin sign) is not modelled.
- Dafny values are immutable, so the claim that the input document is not mutated holds in the model by construction.
- The request's response schema and system instruction are represented by the id of the catalog entry they come from. Their texts are not modelled. When `image` lacks `mimeType` or `b64`, the inline part carries that value as absent.
- A thrown value that is not an object (`throw null`, `throw "text"`) inside the handler is not modelled; every thrown value has optional `status` and `message` properties.
- App.AssetTitle: `title`, `name` and `headline` are read only when they are strings. A truthy value of another type, which the source would return as it is, is treated as absent.
- The `designOutput` the browser receives is a JSON object. `renderContent`, `viewMode` and every React component are not modelled. That includes `PromptInput`, whose submit button is disabled for a blank prompt, so image-only submission cannot be reached from the page.
- `handleImageChange`, `handleImageRemove` and `fileToGenerativePart` are browser file I/O and are not modelled.
- html2canvas, jsPDF, `alert`, link clicks and object URLs are not modelled. Rendering is a parameter that gives a canvas or fails, and the other effects become the returned `Download` value.
- The PDF's image content and the PNG's data URL are not modelled.
- `services/geminiService.ts` (the browser's POST to the function) is not modelled. The browser's generator call is a parameter that resolves with a design or throws.
- `utils/htmlGenerator.ts` and the schema and instruction texts of `constants/design-types.ts` are not modelled.
- `console.error` logging (of a failed image request and of a failed PNG or PDF download) is not modelled.
- DeepCompleteness and DeepPreservation: stated only along paths that pass through no overwritten companion key (and, for completeness, without clashing companion keys), because the walk really loses what lay below an overwritten key.
