# FitFoodie profile and recommendation core, in Dafny

FitFoodie is a Next.js app. A user enters a diet profile: daily protein, carbs
and fat in grams, optional dietary restrictions, and a fitness goal. The app
then asks an AI model for recipe and restaurant recommendations, or for an
analysis of a food photo against that profile. This project models the part
of the app that does not depend on rendering or on the model itself:

- the **profile store** (`UserProfileProvider`). It keeps the profile in
  memory, loads it once from the device store under the key
  `fitfoodie_profile`, and writes every later change back or removes it. It
  also decides whether a profile is complete.
- the **profile form**. Its schema validates the form values, it chooses
  initial values, it resets the form when the stored profile changes, and it
  submits.
- the **recommendation flow's post-processing**: a missing model output is
  an error, and each list is cut to at most five entries or made empty.
- the two **screens**. Each is a small state machine over `isLoading`, the
  error message and the result. Both build the same diet-chart line from the
  profile, and one decides from the model's verdict whether a food "aligns".

Modules, one file each:

| module | file | what it holds |
|---|---|---|
| `Common` | common.dfy | `Option` and `Result` |
| `Text` | text.dfy | decimal rendering of integers (what a template literal does with an integral number below 10^21) and its parser |
| `ProfileSchema` | profile_schema.dfy | the profile, the raw form values, the schema's accept/reject rules and messages |
| `ProfileCodec` | profile_codec.dfy | the stored text form of a profile (the `JSON.stringify` / `JSON.parse` pair, restricted to profiles) |
| `ProfileContext` | profile_context.dfy | the device store, `isProfileComplete`, and the provider class with its two effects |
| `ProfileForm` | profile_form.dfy | default values, reset, submit |
| `DietChart` | diet_chart.dfy | the `Macros: Protein …g, … Restrictions: …` line |
| `FoodRecommendation` | food_recommendation.dfy | the output records and the trimming flow |
| `RecommendationsScreen` | recommendations_display.dfy | the recommendations screen |
| `FoodRecognitionScreen` | food_recognition.dfy | the food-photo screen, the "aligns" check |

A React state update followed by a re-run of an effect is modelled as two
explicit method calls. For example, `Mount` is the load effect followed by
the save effect that the `isInitialized` change triggers. The AI gateway,
the file reader and storage failures are parameters. A gateway call is split
into a `Start…` method, which returns the request the gateway would receive,
and a `Finish…` method, which takes the gateway's answer.

Three facts about the code shape the model:

- the recommendation flow never pads a short list up to five entries;
- the screens keep no request token, so a late response from an older call
  is not discarded;
- a storage failure is only logged to the console, never shown.

## Model

| member | source | states |
|---|---|---|
| Text.NatToString | src/components/recommendations-display.tsx:31 | a number interpolated into the diet line renders as a non-empty run of decimal digits, one digit exactly when it is below ten |
| Text.IntToString | src/components/recommendations-display.tsx:31 | definition: `${n}` of an integral number, a minus sign for a negative one and then its decimal digits; `ParseIntRoundTrip` states that it reads back |
| Text.ParseIntRoundTrip | src/components/recommendations-display.tsx:31 | the rendered integer reads back as the same integer, whatever non-digit text follows it |
| ProfileSchema.IssuesNameFailingFields | FitFoodie/src/components/profile-form.tsx:25-33 | a field has an issue exactly when the schema rejects it: a macro that is not a number or is negative, or a goal that is missing or outside the three-goal enum |
| ProfileSchema.Validate | FitFoodie/src/components/profile-form.tsx:25-33 | the values are accepted exactly when every field is, and the profile is then the values unchanged; otherwise the issues are non-empty and name exactly the rejected fields |
| ProfileCodec.DecodeEncode | FitFoodie/src/context/user-profile-context.tsx:23-41 | the text saved for any profile (integers of any sign, any restriction or goal text, members present or absent) parses back to the same profile |
| ProfileCodec.Encode | FitFoodie/src/context/user-profile-context.tsx:41 | definition: `JSON.stringify` of a profile, keys in schema order, absent optional members left out; `DecodeEncode` and `DecodeIffEncoding` relate it to `Decode` |
| ProfileCodec.Decode | FitFoodie/src/context/user-profile-context.tsx:25 | definition: `JSON.parse` of a stored profile, numbers in JSON's integer grammar (no leading zero), strings with JSON's escapes and no raw control character; `None` is text the model's decoder refuses, which the load effect's `catch` absorbs |
| ProfileCodec.DecodeOnlyEncodings | FitFoodie/src/context/user-profile-context.tsx:25 | any text that decodes is exactly the saved form of the profile it decodes to |
| ProfileCodec.DecodeIffEncoding | FitFoodie/src/context/user-profile-context.tsx:23-41 | for every text and profile: the text decodes to the profile exactly when it is that profile's saved form |
| ProfileCodec.DecodeRejectsLeadingZero | FitFoodie/src/context/user-profile-context.tsx:25-30 | an entry whose protein is written with a leading zero (`07`), which `JSON.parse` refuses, does not load, whatever follows |
| ProfileCodec.DecodeRejectsNegativeZero | FitFoodie/src/context/user-profile-context.tsx:25-30 | the model's deliberate refusal of `-0`, which `JSON.parse` accepts (see "## Left out"): an entry whose protein is written `-0`, with or without more digits after it, does not load |
| ProfileCodec.DecodeRejectsMalformed | FitFoodie/src/context/user-profile-context.tsx:24-28 | samples: a non-numeric protein and `{"protein":07,"carbs":0,"fat":0}` fail to parse, which the load effect catches; empty text does not decode either, though the load effect never parses it, since `if (storedProfile)` skips an empty entry |
| ProfileCodec.DecodeRefusesControl | FitFoodie/src/context/user-profile-context.tsx:25 | text with a raw control character anywhere (a line break inside the restrictions, say), which `JSON.parse` refuses, does not decode |
| ProfileCodec.EncodeHasNoControl | FitFoodie/src/context/user-profile-context.tsx:41 | the saved text of any profile holds no raw control character: `JSON.stringify` escapes every one inside a string |
| ProfileCodec.EscapeCharParses | FitFoodie/src/context/user-profile-context.tsx:25-41 | each escape the encoder writes (`\"`, `\\`, the five two-letter escapes, `\u00` and two hex digits) reads back as the character it stands for |
| ProfileCodec.ParseEscapeCanonical | FitFoodie/src/context/user-profile-context.tsx:25-41 | each escape the decoder accepts is exactly the one the encoder writes for its character |
| ProfileContext.IsProfileComplete | FitFoodie/src/context/user-profile-context.tsx:62-69 | definition: a profile exists, its goal is set and its three macros are non-negative; `ValidatedProfileIsComplete` and `FormRoundTrip` relate it to the schema |
| ProfileContext.CompletenessIgnoresRestrictions | FitFoodie/src/context/user-profile-context.tsx:62-69 | changing only the restrictions never changes whether a profile is complete |
| ProfileContext.DeviceStore.GetItem | FitFoodie/src/context/user-profile-context.tsx:23 | a read returns the stored entry for the key, or an error when the store fails; the store is unchanged |
| ProfileContext.DeviceStore.SetItem | FitFoodie/src/context/user-profile-context.tsx:41 | a write that succeeds stores the value under the key; a failed write changes nothing |
| ProfileContext.DeviceStore.RemoveItem | FitFoodie/src/context/user-profile-context.tsx:49 | a removal that succeeds deletes the key; a failed one changes nothing |
| ProfileContext.LoadedProfile | FitFoodie/src/context/user-profile-context.tsx:22-33 | definition: the profile after the load effect, from the store's entries, whether the read throws, and the current profile |
| ProfileContext.LoadOnlyFromSavedText | FitFoodie/src/context/user-profile-context.tsx:22-33 | a load either keeps the current profile or installs the profile whose saved form is exactly the stored text, so a corrupt entry never becomes a profile |
| ProfileContext.LoadKeepsProfileOnFailure | FitFoodie/src/context/user-profile-context.tsx:22-33 | a failed read, a missing or empty entry, and text that does not parse all leave the current profile as it was |
| ProfileContext.LoadReadsBackSaved | FitFoodie/src/context/user-profile-context.tsx:23-25 | an entry written for a profile loads back as that profile |
| ProfileContext.UserProfileProvider.constructor | FitFoodie/src/context/user-profile-context.tsx:17-18 | the provider starts with no profile and not initialised; the store is the one given |
| ProfileContext.UserProfileProvider.LoadEffect | FitFoodie/src/context/user-profile-context.tsx:21-34 | the profile becomes the loaded one, or stays as it was on every failure (a throwing read, a missing or empty entry, text the model's decoder refuses), and the provider is initialised whatever happens; the store is not written |
| ProfileContext.UserProfileProvider.SaveEffect | FitFoodie/src/context/user-profile-context.tsx:37-54 | before initialisation the store is untouched; afterwards a profile is written under the key and no profile removes it; each failure leaves the store as it was; the in-memory profile never changes; on success the stored text is the profile's encoding, or the key is gone |
| ProfileContext.UserProfileProvider.UpdateProfile | FitFoodie/src/context/user-profile-context.tsx:57-59 | the profile becomes the new one; nothing else changes |
| ProfileContext.UserProfileProvider.Mount | FitFoodie/src/context/user-profile-context.tsx:20-54 | after first mount the provider is initialised and holds what was stored (or none). When the write succeeds, a loaded entry keeps its text and a missing, empty or corrupt entry is removed, and no other key is touched; a failed write leaves the store as it was |
| ProfileContext.SaveThenRestart | FitFoodie/src/context/user-profile-context.tsx:23-41 | a profile set after mount and saved is the profile a fresh provider on the same store loads |
| ProfileForm.ToFormValues | FitFoodie/src/components/profile-form.tsx:57 | definition: the form's view of a profile, every macro a number; `FormRoundTrip` states how it validates |
| ProfileForm.DefaultValues | FitFoodie/src/components/profile-form.tsx:44-50 | definition: the provider's profile, or zero macros, empty restrictions and no goal; `DefaultValuesIncomplete` states how the latter validates |
| ProfileForm.DefaultValuesIncomplete | FitFoodie/src/components/profile-form.tsx:44-50 | the empty form (zero macros, empty restrictions, no goal) fails validation only for the missing goal, with the message `You need to select a fitness goal.` |
| ProfileForm.ResetOnProfileChange | FitFoodie/src/components/profile-form.tsx:55-59 | a reset to a profile makes the form values exactly that profile's fields, so it validates as they do and an accepted form is that profile; no profile leaves the form as it was |
| ProfileForm.ValidatedProfileIsComplete | FitFoodie/src/components/profile-form.tsx:25-33 | every profile the schema accepts is a complete profile |
| ProfileForm.FormRoundTrip | FitFoodie/src/components/profile-form.tsx:44-59 | a stored profile loaded into the form is accepted exactly when it is complete and its goal is one of the three, and it comes back unchanged |
| ProfileForm.OnSubmit | FitFoodie/src/components/profile-form.tsx:62-63 | the submitted profile becomes the provider's profile; on an initialised provider a successful write sets only the profile key to its encoding and a failed one changes nothing; before initialisation nothing is written |
| ProfileForm.HandleSubmit | FitFoodie/src/components/profile-form.tsx:73 | valid values are submitted and give no issues, and on an initialised provider a successful write sets only the profile key to their encoding; invalid ones give the schema's issues and leave the provider and the store untouched; a failed write, or a provider not yet initialised, leaves the store as it was |
| DietChart.RestrictionsText | FitFoodie/src/components/food-recognition.tsx:58 | the restrictions part of the diet line, with its `'None'` fallback, is never empty |
| DietChart.DietChartString | src/components/recommendations-display.tsx:31 | definition: the diet line both screens send; `DietChartReadsBack` and `DietChartDeterminesMacros` state what it carries |
| DietChart.RestrictionsFallback | src/components/recommendations-display.tsx:31 | the restrictions part reads `None` exactly when the restrictions are missing, empty or literally `None`; otherwise it is the restrictions |
| DietChart.DietChartReadsBack | src/components/recommendations-display.tsx:31 | the diet line holds the three macros and the restrictions text, which read back from it |
| DietChart.DietChartDeterminesMacros | src/components/recommendations-display.tsx:31 | two profiles with the same diet line have the same macros and the same restrictions text |
| DietChart.DietChartExamples | FitFoodie/src/components/food-recognition.tsx:58 | 150/200/70 with `gluten-free` gives `Macros: Protein 150g, Carbs 200g, Fat 70g. Restrictions: gluten-free`, and with empty restrictions `… Restrictions: None` |
| FoodRecommendation.TakeAtMost | src/ai/flows/food-recommendation.ts:111 | `slice(0, n)` has length `min(len, n)` and is a prefix of the list |
| FoodRecommendation.TakeAtMostIdempotent | src/ai/flows/food-recommendation.ts:111 | slicing an already-sliced list again changes nothing |
| FoodRecommendation.Trimmed | src/ai/flows/food-recommendation.ts:110-122 | definition: a list as the flow leaves it; `TrimmedIsBoundedPrefix` and `TrimmedIdempotent` state its properties |
| FoodRecommendation.TrimmedIsBoundedPrefix | src/ai/flows/food-recommendation.ts:110-122 | a missing list becomes empty; a present one becomes its first `min(len, 5)` entries |
| FoodRecommendation.TrimmedIdempotent | src/ai/flows/food-recommendation.ts:110-122 | trimming a result list again changes nothing |
| FoodRecommendation.FoodRecommendationFlow | src/ai/flows/food-recommendation.ts:101-126 | no output is the fixed error; otherwise both lists of the output are trimmed in place and the result is what they now hold |
| FoodRecommendation.SevenRecipesBecomeFive | src/ai/flows/food-recommendation.ts:108-125 | seven recipes come back as the first five, in order, and a list of at most five restaurants comes back unchanged |
| RecommendationsScreen.NoticeIffModelGaveNothing | src/components/recommendations-display.tsx:182 | after the flow's trimming, the notice's condition on the two lists holds exactly when the model gave no recipes (list missing or empty) and no restaurants |
| RecommendationsScreen.RecommendationsDisplay.ShowsNoRecommendationsNotice | src/components/recommendations-display.tsx:182 | definition: the notice's render condition, both lists present and empty, read only when not loading; `NoticeAfterFetch` states when it holds |
| RecommendationsScreen.NoticeAfterFetch | src/components/recommendations-display.tsx:182 | after a fetch for a complete profile, the screen shows the notice exactly when the model gave no recipes and no restaurants (each list missing or empty) |
| RecommendationsScreen.RecommendationsDisplay.constructor | src/components/recommendations-display.tsx:15-17 | the screen starts with no result, no error, not loading |
| RecommendationsScreen.RecommendationsDisplay.StartFetch | src/components/recommendations-display.tsx:19-35 | an incomplete profile sets the first-complete message, clears the result and calls nothing; a complete one starts loading, clears error and result, and requests with the diet line and the goal |
| RecommendationsScreen.RecommendationsDisplay.FinishFetch | src/components/recommendations-display.tsx:36-42 | success stores the result, failure sets the fixed fetch message; loading ends either way |
| RecommendationsScreen.RecommendationsDisplay.FetchRecommendations | src/components/recommendations-display.tsx:19-43 | the whole fetch: guard, request, then the result with no error or the fetch message with no result, and loading ended |
| RecommendationsScreen.RecommendationsDisplay.ProfileChanged | src/components/recommendations-display.tsx:46-55 | a complete profile fetches as above; an incomplete one clears the result and sets the complete-to-see message without a request |
| RecommendationsScreen.SevenRecipesDisplayFive | src/components/recommendations-display.tsx:36 | a complete profile and a model giving seven recipes ends with the first five shown, no restaurants, no error, not loading |
| FoodRecognitionScreen.AnalysisErrorMessage | FitFoodie/src/components/food-recognition.tsx:68-72 | the failure message is the fixed text, followed by ` Details: ` and the error's message exactly when that message is non-empty |
| FoodRecognitionScreen.ToLower | FitFoodie/src/components/food-recognition.tsx:80 | lower-casing keeps the length, leaves no ASCII capital, keeps every character that is not a capital, and moves each capital to its small letter |
| FoodRecognitionScreen.ToLowerIdempotent | FitFoodie/src/components/food-recognition.tsx:80 | lower-casing twice is lower-casing once |
| FoodRecognitionScreen.Includes | FitFoodie/src/components/food-recognition.tsx:80 | definition: `includes`, a left-to-right search for the word; `IncludesIff` states it as a match position |
| FoodRecognitionScreen.IncludesIff | FitFoodie/src/components/food-recognition.tsx:80 | `includes` holds exactly when the word occurs at some position of the text |
| FoodRecognitionScreen.IsRecommended | FitFoodie/src/components/food-recognition.tsx:80 | definition: a result exists and its lower-cased verdict includes `aligns`; `IsRecommendedIff` states it as a match position |
| FoodRecognitionScreen.IsRecommendedIff | FitFoodie/src/components/food-recognition.tsx:80 | a food is recommended exactly when there is a result with a verdict whose lower-cased text contains `aligns` somewhere |
| FoodRecognitionScreen.IsRecommendedIgnoresCase | FitFoodie/src/components/food-recognition.tsx:80 | a verdict and its lower-cased form get the same answer |
| FoodRecognitionScreen.IsRecommendedExamples | FitFoodie/src/components/food-recognition.tsx:80 | `Aligns well` is recommended, and so is `It misaligns`, since the check is a plain substring search; a missing verdict is not |
| FoodRecognitionScreen.FoodRecognition.constructor | FitFoodie/src/components/food-recognition.tsx:16-19 | the screen starts with no photo, no result, no error, not loading |
| FoodRecognitionScreen.FoodRecognition.HasImage | FitFoodie/src/components/food-recognition.tsx:44 | definition: `photoDataUri` is truthy, present and not empty |
| FoodRecognitionScreen.FoodRecognition.AnalyzeButtonShown | FitFoodie/src/components/food-recognition.tsx:132-133 | definition: the button's render condition, an image and a complete profile; `StartAnalyze` makes a request exactly when it holds |
| FoodRecognitionScreen.FoodRecognition.ReaderLoadEnd | FitFoodie/src/components/food-recognition.tsx:26-30 | the reader's result becomes the photo, and result and error are cleared |
| FoodRecognitionScreen.FoodRecognition.ReaderError | FitFoodie/src/components/food-recognition.tsx:31-34 | the read-error message is set and the photo cleared |
| FoodRecognitionScreen.FoodRecognition.HandleFileChangeAsWritten | FitFoodie/src/components/food-recognition.tsx:22-37 | no file changes nothing; a read file becomes the photo with result and error cleared; a failed read ends with no photo and no error |
| FoodRecognitionScreen.FoodRecognition.HandleFileChange | FitFoodie/src/components/food-recognition.tsx:22-37 | as above, except that a failed read ends with no photo and the read-error message |
| FoodRecognitionScreen.FoodRecognition.StartAnalyze | FitFoodie/src/components/food-recognition.tsx:43-63 | no image (none, or an empty data URI) sets the select-image message; an incomplete profile sets the complete-profile message; a request is made exactly when the Analyze button shows, with the photo, the diet line and the goal, and the screen is loading with error and result cleared |
| FoodRecognitionScreen.FoodRecognition.FinishAnalyze | FitFoodie/src/components/food-recognition.tsx:64-76 | success stores the result; failure clears it and sets the failure message with details; loading ends |
| FoodRecognitionScreen.FoodRecognition.HandleAnalyze | FitFoodie/src/components/food-recognition.tsx:43-77 | the whole analysis: the two guards in order, the request exactly when the button shows, then the result or the failure message, and loading ended |
| FoodRecognitionScreen.ReadFailureAsWritten | FitFoodie/src/components/food-recognition.tsx:26-34 | on a fresh screen a failed read leaves no message and no photo |
| FoodRecognitionScreen.ReadFailureCorrected | FitFoodie/src/components/food-recognition.tsx:26-34 | with the corrected handlers a failed read shows the read-error message |
| FoodRecognitionScreen.AnalyzeWithoutImage | FitFoodie/src/components/food-recognition.tsx:44-47 | with no image the select-image message wins over an incomplete profile, and no request is made |

## Left out

- Rendering (JSX, cards, toasts, icons, the Refresh button and button `disabled` states) is presentation. The model keeps only the state each view reads, plus the two visibility predicates `ShowsNoRecommendationsNotice` and `AnalyzeButtonShown`.
- A data URI from a successful read is taken as given. `readAsDataURL` never yields an empty one, and an empty one counts as no image, as it does in the source.
- Asynchrony: each gateway call is one `Start`/`Finish` pair. Two overlapping fetches, and the late arrival of an older response, are not modelled. The code does nothing against a stale response anyway.
- The AI prompts, the model, and the `genkit` calls are not modelled. The gateway's answer (result or error message) is a parameter. `food-image-analysis.ts` only adds a null-output check, which reaches the screen as one such error message.
- `console.error` logging is output only and is not modelled.
- React scheduling is not modelled: Strict Mode double effects, batching, and the provider rendering nothing until initialised. `useUserProfile` throwing outside a provider is not modelled either.
- ProfileCodec.Decode reads exactly the text `Encode` writes and rejects everything else. Real `JSON.parse` also accepts other valid JSON: other key orders, whitespace, escapes such as `\u0041`, `\/` or `\u000A` for a character that has a shorter escape, number forms such as `7.0` or `7e0`, and non-profile shapes, which the load effect would then install as the profile. The model instead treats all of these as a failed parse, so the profile stays as it was and the save effect overwrites or removes the entry.
- ProfileCodec.DecodeRejectsNegativeZero and ProfileCodec.Decode: the model refuses `-0`, which `JSON.parse` reads as the number negative zero. Integers have no negative zero, and `JSON.stringify` writes it as `0`, so refusing it keeps the stored text determined by the profile.
- ProfileCodec.Encode escapes as `JSON.stringify` does: `"` and `\` behind a backslash, `\b`, `\t`, `\n`, `\f` and `\r`, and every other control character as `\u00` and two lower-case hex digits. `JSON.stringify` also escapes a lone surrogate; a Dafny `char` is a Unicode scalar value, so the model's strings hold none.
- Macros are integers. `z.coerce.number` coercion of arbitrary text, fractional grams, and infinities are not modelled. Text.IntToString renders every integer in plain decimal. JavaScript writes numbers of 10^21 or more in exponent form (`1e+21`), and integers above 2^53 are not exact, so for such values the diet line and the stored text differ from the source's. The form's "not a number" result is written `None`.
- The zod default messages for a non-number macro and for an out-of-enum goal are library text. They are modelled as named issues without their wording. The custom messages (non-negative macros, required goal) are exact.
- FoodRecognitionScreen.ToLower lower-cases ASCII letters only, not the full Unicode mapping of `toLowerCase`.
- ProfileContext.DeviceStore: storage unavailability and quota errors are modelled as a failure flag on each call.
- `services/recipe.ts`, `services/restaurant.ts`, `next.config.ts`, `app/page.tsx` and `app/layout.tsx` are stubs or wiring outside the core.
- The recommendation flow never pads a short list to five, so the model does not either.

## Findings

| source | as written | input that shows it | evidently intended | confidence | as-written member | corrected member |
|---|---|---|---|---|---|---|
| FitFoodie/src/components/food-recognition.tsx:26-34 | The success handler is on `onloadend`. A file reader fires that event after `error` as well as after `load`. So a failed read sets the error message and then, with a null result, resets the error to null. | selecting a file whose read fails | the read-error message stays on screen after a failed read, with the handler registered on `onload` | medium; not executed | FoodRecognitionScreen.FoodRecognition.HandleFileChangeAsWritten | FoodRecognitionScreen.FoodRecognition.HandleFileChange |
