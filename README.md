# Posterly poster composer — a Dafny model

Posterly's front end is one view. It holds a small form: app name, app
description, an ordered list of feature entries, a language (`ar` or `id`) and a
target platform (`instagram`, `facebook` or `tiktok`). It also holds the handle
of the last generated poster, if there is one. Pressing the button sends the
form as a JSON body to the poster service. An ok response becomes an object URL
that is shown and offered for download. A failure shows the notification
"حدث خطأ: " followed by the error's message.

This project models the view's state and the rules that can be stated exactly:

- `js_text.dfy` (module `JsText`): JavaScript's `String.prototype.trim` over
  ECMAScript's whitespace and line terminators, and the test for a blank feature
  entry (`f.trim() !== ''` is false).
- `filtering.dfy` (module `Filtering`): `Array.prototype.filter` on a sequence,
  with the proof that it returns exactly the accepted elements in order.
- `form.dfy` (module `Form`): the closed language and platform sets and the codes
  they send. It also holds the feature filter with its blank-entry callback and
  the request body.
- `generation.dfy` (module `Generation`): one generation as a step on the poster
  handle, given how the request ended. It also covers a run of generations that
  resolve one after another.
- `render.dfy` (module `Render`): the layout chosen by language, the
  preview/placeholder choice and the download link.
- `app.dfy` (module `App`): the class `PosterComposer`. It has the view's six
  state fields and one method per control. Each method's `modifies` clause names
  the only field it may change. A worked scenario is included as a client method.
- `optional.dfy` (module `Optional`): `Option`, which stands for JavaScript's `null`.

The request itself is abstracted as a `FetchOutcome`. `Delivered(objectUrl)`
is an ok response whose body became the object URL. `NotOk` is a response whose
`ok` flag is false. `Threw(message)` covers the request, reading the body or
creating the URL throwing an error.

Points where the code's behaviour is easy to misread:

- The code drops every feature entry that is blank after trimming, not only the
  empty ones, and sends kept entries untrimmed, so `" a "` is sent with its
  spaces.
- The code never revokes a replaced object URL; the model overwrites the handle.
- The view tests the handle for JavaScript truthiness, so the empty string counts
  as "no poster" (`Render.HasPoster`). Object URLs are never empty, so this only
  matters for the generality of the lemmas.

## Model

| member | source | states |
|---|---|---|
| `App.PosterComposer.constructor` | src/App.jsx:5-10 | The view starts with empty name and description, exactly two empty feature slots, language `ar`, platform `instagram` and no poster. |
| `App.PosterComposer.CurrentPayload` | src/App.jsx:29-35 | The body built from the current state: name and description as held, the codes of the held language and platform, and the filtered features. |
| `App.PosterComposer.SetAppName` | src/App.jsx:62-65 | The name input stores its text verbatim and changes no other field. |
| `App.PosterComposer.SetAppDesc` | src/App.jsx:73-75 | The description input stores its text verbatim and changes no other field. |
| `App.PosterComposer.AddFeature` | src/App.jsx:12-14 | The feature list grows by exactly one `""` at the end. Earlier entries are kept in order, nothing else changes, and the request body it would send is unchanged. |
| `App.PosterComposer.UpdateFeature` | src/App.jsx:16-20 | For an index the caller took from the current list (lines 83-88), only that entry changes: the length and every other entry and field stay, and the seeded slots are never lost. |
| `App.PosterComposer.SetLanguage` | src/App.jsx:105-120 | The language takes one of the two values and no other field changes. |
| `App.PosterComposer.SetPlatform` | src/App.jsx:127-140 | The platform takes one of the three values and no other field changes. |
| `App.PosterComposer.GeneratePoster` | src/App.jsx:22-46 | It sends the body built from the current fields and leaves the form fields alone. On delivery the handle becomes the new object URL with no notification. On a non-ok status or a thrown error the handle is unchanged and the notification is the prefix plus the error message. |
| `App.FillScenarioForm` | src/App.jsx:12-20 | Filling the form through the controls (one added slot, entry 0 set to "Fast", platform tiktok) gives features `["Fast","",""]`, the other values as entered, and no poster. |
| `App.NotOkScenario` | src/App.jsx:29-44 | MyApp/desc with features `["Fast","",""]` and tiktok sends features `["Fast"]`. A non-ok response then leaves no poster and notifies "حدث خطأ: فشل في توليد البوستر". |
| `JsText.TrimStart` | src/App.jsx:32 | The leading-whitespace part of `trim`: it never lengthens its input, and its result is empty or starts with a character that is not whitespace. |
| `JsText.TrimStartDropsWhitespace` | src/App.jsx:32 | What `TrimStart` removes is a prefix made only of whitespace, and the rest is returned unchanged. |
| `JsText.TrimEnd` | src/App.jsx:32 | The trailing-whitespace part of `trim`: it never lengthens its input, and its result is empty or ends with a character that is not whitespace. |
| `JsText.TrimEndDropsWhitespace` | src/App.jsx:32 | What `TrimEnd` removes is a suffix made only of whitespace, and the rest is returned unchanged. |
| `JsText.Trim` | src/App.jsx:32 | `trim` never lengthens its input, and its result is empty or does not end in whitespace. |
| `JsText.TrimIsSlice` | src/App.jsx:32 | `trim` returns a contiguous slice of its input that starts and ends with non-whitespace. Everything it cuts off at either end is whitespace. |
| `JsText.TrimIdempotent` | src/App.jsx:32 | Trimming a trimmed string changes nothing. |
| `JsText.BlankIffAllWhitespace` | src/App.jsx:32 | An entry trims to `''` exactly when every character of it is whitespace (both directions). |
| `JsText.BlankExamples` | src/App.jsx:32 | The empty slot is blank. Any entry holding a non-whitespace character is not blank. |
| `JsText.IsWhitespace` | src/App.jsx:32 | The characters `trim` removes: ECMAScript's WhiteSpace (TAB, VT, FF, ZWNBSP, the Zs space separators) and LineTerminator (LF, CR, LS, PS). It is a definition; `TrimIsSlice` and `BlankIffAllWhitespace` state what follows from it. |
| `JsText.IsBlank` | src/App.jsx:32 | An entry is blank when `f.trim()` is `''`. It is a definition; `BlankIffAllWhitespace` proves it holds exactly for all-whitespace entries. |
| `Form.LanguageCode` | src/App.jsx:105-120 | The language codes are exactly `ar` for Arabic and `id` for Bahasa Indonesia, one to one. |
| `Form.PlatformCode` | src/App.jsx:127-140 | The platform keys are exactly `instagram`, `facebook` and `tiktok`, one to one. |
| `Form.IsFilled` | src/App.jsx:32 | The filter's callback `f => f.trim() !== ''`: the negation of `IsBlank`. It is a definition; `KeepFilled` and `KeepFilledIsSubsequence` state what the filter does with it. |
| `Filtering.Filter` | src/App.jsx:32 | `filter` never adds elements. Every element it returns is accepted by the callback and comes from the input. |
| `Filtering.FilterSelects` | src/App.jsx:32 | The filtered list is the subsequence of the input at increasing positions. Those positions are exactly the ones whose elements the callback accepts, and elements are copied unchanged. |
| `Filtering.SelectsUnique` | src/App.jsx:32 | Conversely, any list that picks exactly the accepted elements in order is the filter's result, so the characterisation determines it. |
| `Filtering.FilterAppend` | src/App.jsx:32 | Filtering a concatenation is concatenating the filtered parts, which preserves order across parts. |
| `Filtering.FilterIdentity` | src/App.jsx:32 | A list whose every element is accepted passes the filter unchanged. |
| `Form.KeepFilled` | src/App.jsx:32 | The feature filter never adds entries. Every entry it returns is not blank and comes from the form's list. |
| `Form.KeepFilledIsSubsequence` | src/App.jsx:32 | The sent features are exactly the entries that are not blank after trimming, in their original order and copied verbatim (untrimmed). Any list with that property equals them. |
| `Form.AppendEmptySlotKeepsFiltered` | src/App.jsx:12-14 | Adding an empty slot never changes the filtered features. |
| `Form.ReplaceEntryFiltered` | src/App.jsx:16-20 | After replacing entry `i` by `v`, the filtered list has `v` at that entry's place exactly when `v` is not blank, and is otherwise unchanged. |
| `Form.KeepFilledIdempotent` | src/App.jsx:32 | Filtering the sent features again changes nothing. |
| `Form.BuildPayload` | src/App.jsx:29-35 | Name and description are copied verbatim with no validation. Language and platform are sent as the codes of the values the form holds, from their closed sets. The features are the filtered list, and no sent feature is blank. |
| `Form.PayloadExample` | src/App.jsx:29-35 | MyApp/desc with features `["Fast","",""]`, `ar` and tiktok produce a body whose features are `["Fast"]`. |
| `Generation.ErrorMessage` | src/App.jsx:38-44 | A non-ok response carries the fixed message "فشل في توليد البوستر". A thrown error carries its own message. |
| `Generation.Generate` | src/App.jsx:38-45 | A notification appears exactly when the outcome is not a delivery. Delivery replaces the handle. A failure keeps the handle and notifies the "حدث خطأ: " prefix followed by the error message. |
| `Generation.LastDelivered` | src/App.jsx:38-45 | It is present exactly when some outcome delivered. |
| `Generation.LastDeliveredIsLast` | src/App.jsx:38-45 | A delivery followed only by failures is the one `LastDelivered` returns. |
| `Generation.RunAll` | src/App.jsx:38-45 | Generations resolved one after another, each a `Generate` step on `posterUrl`. The final handle is the original one or the handle of some delivered outcome. |
| `Generation.RunAllSnoc` | src/App.jsx:38-45 | Running one more generation after a run is one more step on the run's handle. |
| `Generation.LastDeliveredWins` | src/App.jsx:38-45 | After generations resolved in sequence, the handle is that of the last delivery, or the original one if none delivered. |
| `Generation.FailuresKeepPoster` | src/App.jsx:43-45 | Any number of failed attempts leaves the handle as it was. |
| `Render.IsArabic` | src/App.jsx:48 | `isArabic` holds exactly when the language is `ar`. It is a definition; `PageLayout` states what it selects. |
| `Render.PageLayout` | src/App.jsx:48-51 | The page is right-aligned in Tajawal exactly when the language is `ar`, and otherwise left-aligned in Poppins. |
| `Render.HasPoster` | src/App.jsx:157-163 | The truthiness test `posterUrl ? …` and `posterUrl && …`: `null` and `""` are falsy, every other handle is truthy. It is a definition; `PreviewArea` and `DownloadControl` state what the view shows under it. |
| `Render.PreviewArea` | src/App.jsx:157-161 | The placeholder is shown exactly when there is no truthy handle. Otherwise the image of that handle is shown. |
| `Render.DownloadControl` | src/App.jsx:163-171 | A download link exists exactly when there is a truthy handle. It points at that handle and offers the name `posterly-poster.jpg`. |
| `Render.ImageAndLinkTogether` | src/App.jsx:157-171 | The image and the download link appear together for the same handle. Without a poster only the placeholder is shown. |
| `Render.GenerationUpdatesPreview` | src/App.jsx:38-45 | After a delivery the preview shows the new image and offers it as `posterly-poster.jpg`. After a failure the preview and the link are what they were. |

## Left out

- The HTTP request to the poster service, JSON serialisation, `response.blob()` and `URL.createObjectURL` are left out. They are network I/O and browser APIs; the model receives how a request ended as a `FetchOutcome`.
- `alert` as a blocking effect is left out. The model returns the notification text instead.
- Overlapping generations are left out. The source lets several requests be in flight. The last request to resolve with an ok response wins; a failure that resolves later leaves that handle in place. The model treats each generation as one atomic step applied in resolution order (`Generation.LastDeliveredWins`), not as interleaved concurrency.
- React's state and re-render machinery, JSX structure, CSS class strings and the headings are left out. The texts chosen by `isArabic` are also left out: the placeholders of the name and description inputs, the numbered feature placeholders and the Arabic-language radio label ("العربية" or "Arabic"). They are presentation only.
- `JsText.IsWhitespace` follows ECMAScript's WhiteSpace and LineTerminator productions as a fixed list. Later Unicode versions may add space separators (category Zs), and those are not tracked.
- JavaScript strings are sequences of UTF-16 code units, but the model's strings are sequences of Unicode scalar values. Only whitespace tests are made on them, so the difference does not affect any stated property.
- App.PosterComposer.UpdateFeature: requires an index inside the current list. The only caller iterates the current list, so an out-of-range index, which JavaScript would turn into a sparse array, never occurs.
