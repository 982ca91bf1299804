# Jobsy marketplace client: a verified model of its core logic

Jobsy is a React Native marketplace client. People publish service listings, browse and search a
feed, mark favourites, boost a listing for a paid period and subscribe to a premium plan. This
project models, in Dafny, the parts of the client whose behaviour is decided by the client itself
rather than by the backend. They fall into four groups.

- **Paid-entitlement flows.**
  - The premium checkout screen (`app/premium/confirmPremium.tsx`): an optional card-setup cycle, a
    three-way branch on the backend reply, a profile poll capped at 12 attempts, and the mapping
    of sheet results to `paymentStatus`.
  - The boost checkout (`app/boost/confirmBoost.tsx`) and the card update
    (`app/premium/update-payment.tsx`).
  - The request helpers behind them (`helpers/premium_user.ts`, `helpers/boost_service.ts`), with
    their reply validation and ordered keyword tables for error messages.
- **Validators and classifiers.**
  - E-mail syntax and the login/registration guards (`helpers/auth.ts`), and password recovery
    (`helpers/recover_pwd.ts`).
  - The password-strength meter, and change-password form validation.
  - Image-source classification (`helpers/imageUtils.ts`).
  - Search query construction and error mapping (`helpers/search_service.ts`).
  - Address formatting for the location picker.
- **Sequence-valued UI state.**
  - The service-type selector and the bounded image-slot list.
  - The service feed hook (`hooks/useServices.ts`) and the "my published services" screen.
- **The theme preference provider** (`context/themeContext.tsx`).

Every backend, payment-SDK, storage and device call is an input to the model:
- an `Outcome` (resolved value or thrown value);
- a `Reply` (status and body);
- a sheet result (`Completed`, `Canceled(message)` or `Failed(message)`);
- for the premium poll, a sequence with one profile fetch per attempt.

Screens whose React state changes step by step are classes. Their fields mirror the state
variables, and their methods take the oracle values and state the whole new state. Each class
keeps a log of the backend/SDK calls it makes and the alerts it shows, so "at most", "exactly
once" and "only if" properties can be stated about calls. Pure helpers are functions returning
an `Exchange`: the request sent, if any, and how the promise settles.

Module layout:
- `Wrappers` provides `Option`.
- `JsText` provides the JavaScript string semantics the code relies on: truthiness, `\s`,
  `includes`, `startsWith`, `trim`, number-to-string, and UTF-16 length.
- `Http` provides thrown values, replies, requests and keyword tables.
- `PaymentSheet` provides the SDK adapter's results and `paymentStatus`.
- There is one module per core source file.

Behaviour of the code worth knowing:
- A cancelled or failed card-setup sheet in the premium checkout is an initialization failure.
  The screen shows an error alert, never presents the payment sheet, and `paymentStatus` stays
  "processing". There is no separate "canceled" state.
- Cancelling the payment sheet gives "idle" in the premium checkout. In the boost checkout and the
  card update, cancelling is an error like any other.
- An exhausted premium poll sets `paymentStatus` to "idle" and shows the "Seguimos procesando"
  notice. The confirmation e-mail is attempted after both poll outcomes.
- There is no shared purchase state machine. Each screen has its own status fields, and the
  model keeps them separate.

## Model

| member | source | states |
|---|---|---|
| Http.FirstMatchIsFirstRule | helpers/premium_user.ts:36-44 | in an `if … else if` chain over `message.includes`, the first rule whose keyword occurs decides the message, whatever later rules say |
| Http.FirstMatchNoneIff | helpers/premium_user.ts:36-46 | no replacement is chosen exactly when no keyword of the table occurs in the message |
| Http.FirstMatchFromTable | helpers/boost_service.ts:37-49 | a chosen replacement is always the message of some rule of the table |
| Http.NoRuleMatches | helpers/boost_service.ts:37-49 | a message lacking a character every keyword contains matches no rule |
| JsText.OccursAtIncludes | helpers/imageUtils.ts:13 | an occurrence at any index makes `includes` true |
| JsText.IncludesOccurs | helpers/imageUtils.ts:13 | `includes` true yields an index where the substring occurs |
| JsText.IncludesIff | helpers/imageUtils.ts:13 | `includes` holds iff the substring occurs at some index |
| JsText.IncludesHasChars | helpers/premium_user.ts:36-44 | every character of an included substring occurs in the string |
| JsText.MissingCharExcludes | helpers/premium_user.ts:36-44 | a string lacking one character of a keyword does not include it |
| JsText.TrimStart | components/mainComponents/publicar/escogerLocalizacion.tsx:48 | the result is a suffix, everything dropped is whitespace, and it does not start with whitespace |
| JsText.TrimEnd | components/mainComponents/publicar/escogerLocalizacion.tsx:48 | the result is a prefix, everything dropped is whitespace, and it does not end with whitespace |
| JsText.LeadingSpaces | components/mainComponents/publicar/escogerLocalizacion.tsx:48 | the length of the whitespace run at the start: all of it whitespace, and the next character is not |
| JsText.TrailingSpaces | components/mainComponents/publicar/escogerLocalizacion.tsx:48 | the length of the whitespace run at the end: all of it whitespace, and the character before it is not |
| JsText.Trim | components/mainComponents/publicar/escogerLocalizacion.tsx:48 | `trim()` returns a contiguous slice with no whitespace at either end, and drops only whitespace |
| JsText.TrimKeeps | components/mainComponents/publicar/escogerLocalizacion.tsx:48 | `trim()` keeps every non-whitespace character of the string |
| JsText.TrimUnspaced | components/mainComponents/publicar/escogerLocalizacion.tsx:48 | a string without whitespace at its ends is left unchanged by `trim()` |
| JsText.NatToString | helpers/search_service.ts:50-51 | `toString()` of a natural number is a non-empty run of decimal digits without a leading zero |
| JsText.IntToString | helpers/search_service.ts:50-51 | `toString()` of an integer starts with '-' iff it is negative |
| JsText.NatToStringRoundTrip | helpers/search_service.ts:50-51 | reading back the digits of `toString()` gives the number again |
| JsText.Utf16Length | components/authComponents/PasswordMeter.tsx:9 | `.length` counts UTF-16 code units: between one and two per character |
| JsText.Utf16LengthBasicPlane | components/authComponents/PasswordMeter.tsx:9 | for characters of the basic plane, `.length` is the number of characters |
| Auth.ValidateEmail | helpers/auth.ts:4-7 | `validateEmail`: split at the first '@', a non-empty local part and a domain of at least three characters, neither containing whitespace or '@', with a '.' that is not the domain's first or last character |
| Auth.IndexOf | helpers/auth.ts:4-7 | the index of the first occurrence of a character, or none exactly when it does not occur |
| Auth.ValidateEmailIffPattern | helpers/auth.ts:4-7 | the e-mail scan accepts exactly the strings matching `^[^\s@]+@[^\s@]+\.[^\s@]+$`, both directions |
| Auth.ValidatedEmailMatches | helpers/auth.ts:4-7 | every address the scan accepts splits as the regular expression requires |
| Auth.MatchingEmailValidates | helpers/auth.ts:4-7 | every address the regular expression matches passes the scan |
| Auth.ValidEmailHasOneAt | helpers/auth.ts:4-7 | a valid e-mail address contains exactly one '@' |
| Auth.LoginUser | helpers/auth.ts:9-33 | the request is sent iff both fields are non-empty and the e-mail is valid; empty fields and invalid e-mails give their fixed errors; success returns the reply and stores token and user, in that order; failures store nothing |
| Auth.RegisterUser | helpers/auth.ts:35-57 | the request is sent iff all three fields are non-empty and the e-mail is valid; a reply without `success` fails with the server's message or "Error en el registro" |
| RecoverPassword.RecoverPasswordCall | helpers/recover_pwd.ts:3-23 | the request is sent iff the e-mail is non-empty and valid; a reply without `ok` fails with its message or the default; with `ok` the server's message is returned |
| PasswordMeter.StrongRegexTest | components/authComponents/PasswordMeter.tsx:10 | the strong pattern read as its parts: three lookaheads over the first line, no line terminator, and at least 8 code units |
| PasswordMeter.IsStrong | components/authComponents/PasswordMeter.tsx:10 | the strength rule without the pattern: at least 8 code units, no line terminator, an uppercase letter, a digit and one of `!@#$%^&*` |
| PasswordMeter.StrongRegexTestIff | components/authComponents/PasswordMeter.tsx:10 | the strength regular expression accepts exactly passwords of length ≥ 8 without line terminators that have an uppercase letter, a digit and a symbol |
| PasswordMeter.GetPasswordStrength | components/authComponents/PasswordMeter.tsx:8-13 | "Débil" iff shorter than 6 code units, "Fuerte" iff strong, "Media" iff at least 6 and not strong |
| PasswordMeter.StrengthLabels | components/authComponents/PasswordMeter.tsx:8-13 | the result is always one of the three labels, each with its fixed colour |
| PasswordMeter.ShortPasswordsAreMedium | components/authComponents/PasswordMeter.tsx:10-11 | every 6- or 7-code-unit password is "Media" |
| PremiumUser.ClassifyPremiumError | helpers/premium_user.ts:33-46 | the catch block: an Error or Axios error whose message contains the first matching keyword of network, 401, 403, 404 becomes that rule's Error; anything else is rethrown as it is |
| PremiumUser.PremiumUserService | helpers/premium_user.ts:12-48 | a request is sent iff a token is stored; the reply is returned iff status is 200 with a body; a bad reply raises "Respuesta inválida del servidor"; thrown errors go through the keyword table |
| PremiumUser.ClassifyPremiumErrorIdempotent | helpers/premium_user.ts:36-46 | the replacement messages match no rule, so classifying a classified error changes nothing |
| PremiumUser.ReplacementsMatchNoRule | helpers/premium_user.ts:36-44 | none of the four replacement messages matches any rule of the table |
| PremiumUser.ReplacementsLackKeywordChars | helpers/premium_user.ts:37-44 | none of the four replacement messages contains a 'w' or a '4' |
| PremiumUser.NoRuleMatchesDigitsOrW | helpers/premium_user.ts:36-44 | a message with neither 'w' nor '4' matches none of "network", "401", "403", "404" |
| PremiumUser.OwnPremiumErrorsPassThrough | helpers/premium_user.ts:15-46 | the helper's own no-token and invalid-reply messages reach the caller unchanged |
| PremiumUser.NetworkRuleFirst | helpers/premium_user.ts:36-38 | a message mentioning "network" becomes the connection message whatever else it contains |
| PremiumUser.ClassifyPremiumErrorPicksRule | helpers/premium_user.ts:36-44 | the first rule of the order network, 401, 403, 404 whose keyword occurs picks the message |
| PremiumUser.ClassifyPremiumErrorPassesUnmatched | helpers/premium_user.ts:46 | an error matching no keyword is rethrown unchanged |
| PremiumUser.CreatePremiumSetupIntentService | helpers/premium_user.ts:50-77 | request iff a stored token; the body only for status 200 with a body; its own no-token and "No se pudo obtener el SetupIntent" errors; call errors rethrown unmapped |
| BoostService.ClassifyBoostError | helpers/boost_service.ts:35-55 | the catch block: an Error is mapped by the keyword table or rethrown; a thrown non-Error becomes the unknown-error Error |
| BoostService.BoostServiceCall | helpers/boost_service.ts:11-56 | a request to `/service/boost/{id}` carrying the plan is sent iff a token is stored; a result is returned iff status 200 with a truthy client secret, and it always has one; failures are `Error`s mapped by the keyword table |
| BoostService.BoostPathNamesService | helpers/boost_service.ts:17-20 | the request path is the fixed prefix followed by exactly the service id |
| BoostService.NoBoostRuleMatches | helpers/boost_service.ts:37-49 | a message with neither 'w' nor '4' matches no boost rule |
| BoostService.OwnBoostErrorsPassThrough | helpers/boost_service.ts:14-55 | the no-token and invalid-reply messages reach the caller unchanged |
| BoostService.ClassifyBoostErrorIdempotent | helpers/boost_service.ts:37-55 | every message the catch block produces matches no rule, so classification is idempotent |
| BoostService.ClassifyBoostErrorPicksRule | helpers/boost_service.ts:37-49 | the first rule of the order network, 401, 403, 404 whose keyword occurs picks the message |
| BoostService.ClassifyBoostErrorPassesUnmatched | helpers/boost_service.ts:51-52 | an `Error` matching no keyword is rethrown unchanged |
| SearchService.QueryPairs | helpers/search_service.ts:47-51 | the appended pairs: query, then page, then limit, each only when truthy, numbers as decimal text |
| SearchService.SerializePairs | helpers/search_service.ts:53 | `URLSearchParams.toString()`: form-encoded `name=value` pairs joined by '&' |
| SearchService.SearchUrl | helpers/search_service.ts:53 | `/service/search?` followed by the serialized pairs |
| SearchService.ServerMessage | helpers/search_service.ts:78-80 | the body's truthy `error`, else its truthy `message`, else "Error del servidor: " and the status |
| SearchService.BuildQueryParams | helpers/search_service.ts:47-51 | the appended pairs are exactly those of QueryPairs |
| SearchService.QueryPairsSpec | helpers/search_service.ts:47-51 | at most three pairs, in the order query, page, limit; each name present iff its parameter is truthy, with the parameter's value or its decimal text |
| SearchService.HexDigit | helpers/search_service.ts:53 | a hexadecimal digit is an unreserved form character |
| SearchService.Utf8Bytes | helpers/search_service.ts:53 | a character encodes to one to four bytes |
| SearchService.PercentBytes | helpers/search_service.ts:53 | percent-encoding yields three output characters per byte, all legal in a query |
| SearchService.EncodeFormChar | helpers/search_service.ts:53 | every character encodes to a non-empty run of legal query characters |
| SearchService.FormEncode | helpers/search_service.ts:53 | form encoding yields only legal query characters |
| SearchService.FormEncodeUnreserved | helpers/search_service.ts:53 | a string of unreserved characters is encoded as itself |
| SearchService.FormEncodeHasNoSeparators | helpers/search_service.ts:53 | an encoded value contains no '&', '=' or space, so pairs cannot run together |
| SearchService.SearchUrlWithoutParams | helpers/search_service.ts:47-53 | with no truthy parameter the URL is "/service/search?" |
| SearchService.ServerMessageKeepsStatus | helpers/search_service.ts:78-80 | without `error` or `message` in the body, the message is "Error del servidor: " followed by the status, which reads back |
| SearchService.MapSearchError | helpers/search_service.ts:69-86 | the result is always an `Error`: connection message without a response, the server's message with one, other `Error`s unchanged, non-`Error`s the generic message |
| SearchService.SearchServiceCall | helpers/search_service.ts:41-87 | a GET with the built URL is sent iff a token is stored; the reply is returned iff it has data with a services array; otherwise the format error; thrown errors mapped |
| ChangePassword.DescribesErrorsUnique | app/perfil/password.tsx:46-56 | at most one error map satisfies the validation rules for given inputs |
| ChangePassword.BuildErrors | app/perfil/password.tsx:46-56 | each empty field gets "Este campo es obligatorio"; the mismatch message is set only when both new fields are non-empty and differ; the map is empty iff all filled and matching |
| ChangePassword.ChangePasswordForm.constructor | app/perfil/password.tsx:20-23 | all fields empty, no errors, no calls |
| ChangePassword.ChangePasswordForm.EditCurrentPassword | app/perfil/password.tsx:92-95 | editing the current password clears only its own error; the other errors are unchanged |
| ChangePassword.ChangePasswordForm.EditNewPassword | app/perfil/password.tsx:105 | editing the new password leaves the errors unchanged |
| ChangePassword.ChangePasswordForm.EditConfirmPassword | app/perfil/password.tsx:120 | editing the confirmation leaves the errors unchanged |
| ChangePassword.ChangePasswordForm.HandleChangePassword | app/perfil/password.tsx:45-73 | the update is called iff the fresh error map is empty; each submit replaces the whole map; a server message containing "contraseña actual" sets only that field's error; any other failure alerts and leaves the map empty |
| ServiceTypeSelector.Remove | components/mainComponents/publicar/escogerServicio.tsx:34 | the filter keeps exactly the elements other than the id and never grows |
| ServiceTypeSelector.Toggle | components/mainComponents/publicar/escogerServicio.tsx:30-39 | multiple mode removes every occurrence of a present id or appends an absent one at the end; single mode empties or sets the sole element; the id is in the result iff it was not before |
| ServiceTypeSelector.RemoveAppend | components/mainComponents/publicar/escogerServicio.tsx:34 | filtering distributes over concatenation, so other ids keep their order |
| ServiceTypeSelector.RemoveAbsent | components/mainComponents/publicar/escogerServicio.tsx:34 | filtering out an absent id changes nothing |
| ServiceTypeSelector.RemoveKeepsNoDuplicates | components/mainComponents/publicar/escogerServicio.tsx:34 | filtering keeps a duplicate-free selection duplicate-free |
| ServiceTypeSelector.ToggleTwiceRestores | components/mainComponents/publicar/escogerServicio.tsx:34-36 | in multiple mode, toggling an absent id twice restores the selection exactly |
| ServiceTypeSelector.ToggleKeepsNoDuplicates | components/mainComponents/publicar/escogerServicio.tsx:21-39 | toggling keeps a duplicate-free selection duplicate-free |
| ServiceTypeSelector.Selector.constructor | components/mainComponents/publicar/escogerServicio.tsx:21 | the selection starts empty |
| ServiceTypeSelector.Selector.ToggleSelection | components/mainComponents/publicar/escogerServicio.tsx:30-43 | the stored selection is the toggled one and the callback receives exactly it; no duplicates, and at most one element in single mode |
| ImageUpload.RemoveAt | components/mainComponents/publicar/subirImagen.tsx:41-45 | removing an in-range index shortens the list by one; an out-of-range index keeps its length |
| ImageUpload.RemoveAtSplits | components/mainComponents/publicar/subirImagen.tsx:42 | an in-range removal deletes exactly that element and keeps the rest in order |
| ImageUpload.RemoveAtOutOfRange | components/mainComponents/publicar/subirImagen.tsx:42 | an out-of-range index leaves the list unchanged |
| ImageUpload.SlotCount | components/mainComponents/publicar/subirImagen.tsx:87 | `Array.from({length: maxImages})` has maxImages slots, none for a negative count |
| ImageUpload.Slots | components/mainComponents/publicar/subirImagen.tsx:47-87 | exactly maxImages slots; slot i is filled iff `images[i]` is truthy, and shows that uri |
| ImageUpload.LimitAlert | components/mainComponents/publicar/subirImagen.tsx:22-24 | the "Límite alcanzado" dialog naming the limit in decimal |
| ImageUpload.ImageUploader.constructor | components/mainComponents/publicar/subirImagen.tsx:14-17 | the list and the dialog log start empty |
| ImageUpload.ImageUploader.PickImage | components/mainComponents/publicar/subirImagen.tsx:21-39 | the picker opens iff below the limit; a non-cancelled pick appends exactly its first uri, and the callback receives the new list; otherwise the list is unchanged; a full list shows the "Límite alcanzado" dialog and nothing else does; the length never exceeds maxImages |
| ImageUpload.ImageUploader.RemoveImage | components/mainComponents/publicar/subirImagen.tsx:41-45 | the list becomes RemoveAt of the old one and the callback receives exactly it; no dialog |
| ImageUpload.ImageUploader.PressSlot | components/mainComponents/publicar/subirImagen.tsx:47-78 | pressing a filled slot removes its image without a dialog; pressing an empty slot runs the picker, with the limit dialog when the list is full |
| ServiceFeed.Transform | hooks/useServices.ts:44-69 | `_id` becomes id and `service_name` title; address, person name and images are never empty; photos kept when present; favourite and promoted flags true only when the record says true |
| ServiceFeed.TransformDefaults | hooks/useServices.ts:49-59 | defaults: "Dirección no disponible", one default image, 0 favourites, false flags, "Anónimo" with no owner |
| ServiceFeed.TransformOwner | hooks/useServices.ts:45-60 | the owner is `user`, else `user_id`: its name and photo are used |
| ServiceFeed.TransformAll | hooks/useServices.ts:42-73 | the mapping preserves length and order, element by element |
| ServiceFeed.SetFavorite | hooks/useServices.ts:115-119 | items with the id get the new flag; all other items are unchanged; the length is kept |
| ServiceFeed.SetFavoriteIdempotent | hooks/useServices.ts:115-119 | setting the same flag twice is the same as once |
| ServiceFeed.SetFavoriteUndo | hooks/useServices.ts:109-119 | flipping a flag and flipping it back restores the list |
| ServiceFeed.Paged | hooks/useServices.ts:84-88 | page 1 replaces the list; any other page appends after the existing items |
| ServiceFeed.PageRequest | hooks/useServices.ts:79-83 | every fetch asks for limit 10 with the given page and query |
| ServiceFeed.Search | hooks/useServices.ts:79-83 | the fetch is the search helper's exchange for those parameters |
| ServiceFeed.Feed.constructor | hooks/useServices.ts:32-38 | initial state: empty list, page 1 of 1, loading |
| ServiceFeed.Feed.FetchServices | hooks/useServices.ts:75-104 | on success the list is paged in, page and totalPages are set, and an empty result alerts; on failure the list is kept and an alert shown; loading and isRefreshing end false |
| ServiceFeed.Feed.ShowPage | hooks/useServices.ts:84-95 | the fetched page is transformed and paged into the list, and page and totalPages are recorded |
| ServiceFeed.Feed.HandleToggleFavorite | hooks/useServices.ts:106-127 | calls remove or add according to the current flag; only on success flips the flag of the matching items |
| ServiceFeed.Feed.HandleNearbyPress | hooks/useServices.ts:129-146 | without coordinates the list is untouched; otherwise it becomes the transformed nearby results, or an alert on failure; locationLoading ends false |
| ServiceFeed.Feed.HandleLoadMore | hooks/useServices.ts:148-152 | fetches iff page < totalPages and not loading; the request is page+1 with the current search text; success appends the page and records page and totalPages; failure keeps list, page and totalPages and adds one alert; page stays at least 1 |
| PublishedServices.ToCard | app/perfil/publicados.tsx:29-36 | `_id` becomes id and `service_name` title; the name comes from `user_id`, else "Anónimo" |
| PublishedServices.ToCardIgnoresUser | app/perfil/publicados.tsx:29-36 | the card does not depend on the `user` field |
| PublishedServices.ToCardAgreesWithFeed | app/perfil/publicados.tsx:29-36 | id and title agree with the feed's mapping, and so does the name when there is no `user` |
| PublishedServices.ToCards | app/perfil/publicados.tsx:29-36 | the mapping preserves length and order |
| PublishedServices.RemoveById | app/perfil/publicados.tsx:92 | the filter keeps exactly the entries with another id and never grows |
| PublishedServices.RemoveByIdAppend | app/perfil/publicados.tsx:92 | the filter distributes over concatenation, so the rest keep their order |
| PublishedServices.RemoveByIdAbsent | app/perfil/publicados.tsx:92 | deleting an absent id changes nothing |
| PublishedServices.LoadMoreRepeatsReply | app/perfil/publicados.tsx:41-47 | the backend call ignores the page, so loading page 2 appends the first page's cards again |
| PublishedServices.IsCloseToBottom | app/perfil/publicados.tsx:168-172 | holds iff layout height + offset ≥ content height − 20 |
| PublishedServices.CloseToBottomMonotone | app/perfil/publicados.tsx:168-172 | scrolling further down keeps the list close to the bottom |
| PublishedServices.MyServicesScreen.constructor | app/perfil/publicados.tsx:18-23 | initial state: empty list, page 1 of 1, loading |
| PublishedServices.MyServicesScreen.FetchServices | app/perfil/publicados.tsx:38-61 | page 1 replaces and other pages append; page and totalPages are set; a failure keeps the list and alerts; loading and isRefreshing end false |
| PublishedServices.MyServicesScreen.HandleRefresh | app/perfil/publicados.tsx:63-66 | a refresh reloads page 1: success replaces the list and records totalPages without an alert; failure keeps list, page and totalPages and adds the load alert |
| PublishedServices.MyServicesScreen.HandleLoadMore | app/perfil/publicados.tsx:73-77 | requests page+1 iff page < totalPages and not loading; success appends the cards and records page+1 and totalPages; failure keeps list, page and totalPages and adds the load alert; page stays at least 1 |
| PublishedServices.MyServicesScreen.ConfirmDelete | app/perfil/publicados.tsx:86-97 | a successful delete removes exactly the entries with that id; a failed or refused one leaves the list unchanged |
| Theme.ThemeProvider.constructor | context/themeContext.tsx:22-23 | theme "light" with systemTheme false |
| Theme.ThemeProvider.Load | context/themeContext.tsx:26-42 | a stored value that parses to an object restores mode and system; missing or unparseable values keep the current state |
| Theme.ThemeProvider.ColorSchemeChanged | context/themeContext.tsx:44-54 | the device scheme is followed, and persisted, only when systemTheme is true and the scheme is non-null |
| Theme.ThemeProvider.ToggleTheme | context/themeContext.tsx:56-64 | theme := t, systemTheme := false, and `{mode: t, system: false}` is stored |
| Theme.ThemeProvider.UseSysTheme | context/themeContext.tsx:66-76 | with a known scheme the theme follows it with systemTheme true and the pair is stored; with none nothing changes |
| Theme.RestartRestores | context/themeContext.tsx:26-76 | after any write, a freshly started provider that loads the stored value has the same theme and system flag |
| ImageSource.GetImageSource | helpers/imageUtils.ts:1-18 | objects and null are returned as they are; a non-http string containing "service_default_image" gives the bundled default; everything else becomes `{uri: input}` |
| ImageSource.RemoteWinsOverDefault | helpers/imageUtils.ts:8-10 | a string starting with "http" becomes a uri even if it names the default image |
| ImageSource.FeedPlaceholderIsBundled | helpers/imageUtils.ts:13-15 | the feed's placeholder path maps to the bundled default asset |
| LocationInput.RawAddress | components/mainComponents/publicar/escogerLocalizacion.tsx:48 | the template literal before `trim()`: street, number, city and region, a missing part as empty text, joined by " ", ", " and ", " |
| LocationInput.FormatAddress | components/mainComponents/publicar/escogerLocalizacion.tsx:48 | the address is trimmed at both ends only, is no longer than the raw text, and keeps the commas |
| LocationInput.AllMissingKeepsSeparators | components/mainComponents/publicar/escogerLocalizacion.tsx:48 | with every part missing the address is ", ," |
| LocationInput.FullAddressUntrimmed | components/mainComponents/publicar/escogerLocalizacion.tsx:48 | with a street and a region that do not end in space, the address is "<street> <number>, <city>, <region>" |
| LocationInput.LocationField.constructor | components/mainComponents/publicar/escogerLocalizacion.tsx:19 | not loading and no dialog at first |
| LocationInput.LocationField.ButtonDisabled | components/mainComponents/publicar/escogerLocalizacion.tsx:77 | the button is disabled iff a location is loading |
| LocationInput.LocationField.GetCurrentLocation | components/mainComponents/publicar/escogerLocalizacion.tsx:23-62 | both callbacks fire iff permission was granted, a position was read and geocoding returned results; they receive the same text formatted from the first result and the geocoded coordinates; a refused permission shows "Permisos requeridos", a failed position read or geocoding shows the "Error" dialog, and nothing else shows one; loading ends false |
| ConfirmPremium.SettledReply | app/premium/confirmPremium.tsx:52-74 | the reply used is the first unless it requires a card; then it is the second, fetched after one setup cycle; there is none iff a step of that cycle failed |
| ConfirmPremium.SheetMessage | app/premium/confirmPremium.tsx:68-70 | the message of `new Error(sheetError.message)` as the catch shows it: the message, or the fallback when empty |
| ConfirmPremium.InitOutcome | app/premium/confirmPremium.tsx:50-120 | what initializePaymentSheet returns: failure when a step throws, poll mode for null or a falsy secret, payment mode for a truthy secret whose sheet setup succeeds |
| ConfirmPremium.InitCalls | app/premium/confirmPremium.tsx:52-105 | the calls of initializePaymentSheet in order, stopping at the first step that throws |
| ConfirmPremium.SetupCycleCalls | app/premium/confirmPremium.tsx:58-73 | the card-setup cycle's calls: setup intent, sheet setup with its secret, presentation, second subscription request, stopping at the first failure |
| ConfirmPremium.PaymentInitCalls | app/premium/confirmPremium.tsx:88-102 | the payment-sheet setup, made only when the settled reply has a truthy secret |
| ConfirmPremium.InitFailureMessage | app/premium/confirmPremium.tsx:112-119 | the init catch block's alert text: the first failing step's message, or the default |
| ConfirmPremium.InitInfo | app/premium/confirmPremium.tsx:79-119 | infoMessage when initialization returns: cleared on failure, else the poll, confirm or verify text of the branch taken |
| ConfirmPremium.InitClientSecret | app/premium/confirmPremium.tsx:79-89 | clientSecret after initialization: cleared for null, set for a truthy secret, otherwise kept |
| ConfirmPremium.ProfileAt | app/premium/confirmPremium.tsx:143-151 | the i-th profile fetch; fetches past the script fail |
| ConfirmPremium.PollAttempts | app/premium/confirmPremium.tsx:139-152 | the number of profile fetches: up to and including the first premium reply, or all 12 |
| ConfirmPremium.EmailNotice | app/premium/confirmPremium.tsx:167-175 | "CORREO ENVIADO" when the e-mail goes out, "CORREO NO ENVIADO" when it throws |
| ConfirmPremium.FinalStatus | app/premium/confirmPremium.tsx:128-229 | paymentStatus at the end of an attempt: "processing" after an init failure, "success" or "idle" from the poll, and the sheet result's status in payment mode |
| ConfirmPremium.PaymentCalls | app/premium/confirmPremium.tsx:128-229 | all calls of an attempt: the init calls followed by the later calls |
| ConfirmPremium.LaterCalls | app/premium/confirmPremium.tsx:136-222 | the calls after initialization: the profile fetches and the e-mail when polling; the presentation and, on success, the e-mail in payment mode |
| ConfirmPremium.AttemptNotices | app/premium/confirmPremium.tsx:112-229 | the alerts of an attempt: the init failure alert, the poll result and e-mail alerts, or the payment result's alerts |
| ConfirmPremium.FinalInfo | app/premium/confirmPremium.tsx:136-190 | infoMessage at the end: cleared after a successful poll, the processing text after an exhausted one, otherwise as initialization left it |
| ConfirmPremium.FirstActivation | app/premium/confirmPremium.tsx:139-152 | the first attempt below 12 whose fetch reports premium, with none before it; none iff no attempt does |
| ConfirmPremium.Repeat | app/premium/confirmPremium.tsx:141-152 | n copies of one call |
| ConfirmPremium.RepeatCount | app/premium/confirmPremium.tsx:141-152 | a run of one call contains that call n times and no other call |
| ConfirmPremium.PollAttemptsSpec | app/premium/confirmPremium.tsx:139-152 | the poll makes between 1 and 12 fetches, all 12 iff none of the first 11 reports premium, and stops at the first that does |
| ConfirmPremium.FailedFetchIsNotPremium | app/premium/confirmPremium.tsx:149-151 | a failed fetch counts as a non-premium reply: the loop goes on |
| ConfirmPremium.BranchSelection | app/premium/confirmPremium.tsx:79-111 | `null` selects poll mode, a truthy secret payment mode (unless the sheet setup fails), and undefined or "" fall back to poll mode |
| ConfirmPremium.SecondReplyNotRetested | app/premium/confirmPremium.tsx:52-74 | after a setup cycle the second reply is used as it is: two subscription requests and one setup intent |
| ConfirmPremium.SetupSheetErrorAbortsInit | app/premium/confirmPremium.tsx:68-134 | a cancelled or failed setup sheet fails initialization, never presents the payment sheet and leaves "processing" |
| ConfirmPremium.CallBounds | app/premium/confirmPremium.tsx:52-152 | at most two subscription requests, one setup intent and 12 profile fetches per attempt; no fetches outside poll mode |
| ConfirmPremium.LaterCallCounts | app/premium/confirmPremium.tsx:136-222 | after initialization there is no subscription request or setup intent, and at most 12 profile fetches, only in poll mode |
| ConfirmPremium.InitCallCounts | app/premium/confirmPremium.tsx:50-120 | initialization makes at most two subscription requests, at most one setup intent and no profile fetch |
| ConfirmPremium.PaymentSheetOnlyInPaymentMode | app/premium/confirmPremium.tsx:196-197 | the payment sheet is presented iff initialization chose payment mode |
| ConfirmPremium.EmailRule | app/premium/confirmPremium.tsx:167-222 | the e-mail is attempted after both poll outcomes, and in payment mode only on success |
| ConfirmPremium.StatusMapping | app/premium/confirmPremium.tsx:131-228 | init failure keeps "processing"; poll gives "success" or "idle"; cancel gives "idle", other sheet errors "error", no error "success"; "error" arises only from a failed payment sheet |
| ConfirmPremium.ConfirmPremiumScreen.constructor | app/premium/confirmPremium.tsx:25-31 | idle, not loading, no secret, no message |
| ConfirmPremium.ConfirmPremiumScreen.PayButtonDisabled | app/premium/confirmPremium.tsx:333 | the pay button is disabled iff isLoading |
| ConfirmPremium.ConfirmPremiumScreen.FailInit | app/premium/confirmPremium.tsx:112-119 | an initialization failure clears the message and shows one error alert |
| ConfirmPremium.ConfirmPremiumScreen.InitializePaymentSheet | app/premium/confirmPremium.tsx:50-120 | returns the outcome of InitOutcome, makes the calls of InitCalls, and sets message, secret and alert as specified |
| ConfirmPremium.InitCallsSplit | app/premium/confirmPremium.tsx:50-105 | initialization calls are the first subscription request, then the setup cycle when a card is needed, then the payment-sheet init |
| ConfirmPremium.ConfirmPremiumScreen.SetUpCard | app/premium/confirmPremium.tsx:53-119 | the card-setup cycle settles on a reply iff no step throws, makes exactly the cycle's calls, and fails with the init alert otherwise |
| ConfirmPremium.ConfirmPremiumScreen.TakeBranch | app/premium/confirmPremium.tsx:79-111 | on the settled reply: null polls, a truthy secret initializes the payment sheet (failing with "Error al configurar pago: "), anything else polls; message and secret as set there |
| ConfirmPremium.ConfirmPremiumScreen.PollProfile | app/premium/confirmPremium.tsx:139-152 | the loop reports activation iff some attempt below 12 reports premium, and makes exactly PollAttempts fetches |
| ConfirmPremium.ConfirmPremiumScreen.SendConfirmationEmail | app/premium/confirmPremium.tsx:167-175 | one e-mail call and the matching sent / not-sent alert |
| ConfirmPremium.ConfirmPremiumScreen.FinishPoll | app/premium/confirmPremium.tsx:136-190 | poll mode ends in "success" with the premium alert, or "idle" with the "Seguimos procesando" notice, then the e-mail |
| ConfirmPremium.ConfirmPremiumScreen.FinishPayment | app/premium/confirmPremium.tsx:195-222 | payment mode maps sheet completion, cancellation and failure to "success", "idle" and "error" with their alerts; e-mail only on success |
| ConfirmPremium.ConfirmPremiumScreen.HandlePayment | app/premium/confirmPremium.tsx:122-232 | with payments unavailable only an alert; otherwise status, calls, alerts, message and secret are those of the script; isLoading is false on return |
| ConfirmPremium.ConfirmPremiumScreen.RunAttempt | app/premium/confirmPremium.tsx:128-229 | the try block ends with the status, calls, alerts, message and secret FinalStatus, PaymentCalls, AttemptNotices, FinalInfo and InitClientSecret give |
| ConfirmPremium.ConfirmPremiumScreen.FinishAttempt | app/premium/confirmPremium.tsx:135-222 | after a ready sheet, poll or payment mode produces the later calls, alerts and status of the script |
| ConfirmBoost.PlanPriceCents | app/boost/confirmBoost.tsx:18-19 | the price is positive exactly for "24h", "72h" and "1week" |
| ConfirmBoost.PlanPrices | app/boost/confirmBoost.tsx:18-19 | 150, 350 and 600 cents, increasing with the boost length |
| ConfirmBoost.Boost | app/boost/confirmBoost.tsx:36 | the outcome of boostService for the attempt's token and reply |
| ConfirmBoost.AttemptStatus | app/boost/confirmBoost.tsx:35-58 | "success" iff the boost request, the sheet setup and the sheet all succeed, else "error" |
| ConfirmBoost.AttemptCalls | app/boost/confirmBoost.tsx:36-48 | the boost request, then the sheet setup with its client secret, then the presentation, each only after the previous step succeeded |
| ConfirmBoost.AttemptNotice | app/boost/confirmBoost.tsx:46-58 | the success dialog naming the plan, or "Error en el pago" with the failing step's prefixed message or the default |
| ConfirmBoost.CancelIsError | app/boost/confirmBoost.tsx:48-58 | closing the payment sheet gives "error" |
| ConfirmBoost.OneBoostRequest | app/boost/confirmBoost.tsx:36-48 | exactly one boost request per attempt, and the sheet is configured with its non-empty client secret |
| ConfirmBoost.SuccessNeedsEverything | app/boost/confirmBoost.tsx:36-58 | "success" iff a token is stored, the reply is 200 with a client secret, and both sheet steps complete |
| ConfirmBoost.ConfirmBoostScreen.constructor | app/boost/confirmBoost.tsx:15-16 | idle and not loading |
| ConfirmBoost.ConfirmBoostScreen.PayButtonDisabled | app/boost/confirmBoost.tsx:123 | the pay button is disabled iff isLoading |
| ConfirmBoost.ConfirmBoostScreen.CurrentPriceCents | app/boost/confirmBoost.tsx:19 | the price shown is the plan's price |
| ConfirmBoost.ConfirmBoostScreen.HandlePayment | app/boost/confirmBoost.tsx:21-62 | missing service or plan, or unavailable payments: one alert and no call or status change; otherwise status, calls and the alert are those of the attempt, and isLoading ends false |
| ConfirmBoost.ConfirmBoostScreen.Fail | app/boost/confirmBoost.tsx:56-58 | the catch block sets "error" and alerts the message |
| UpdatePayment.Updated | app/premium/update-payment.tsx:34-51 | the card is replaced iff the setup intent, the sheet setup and the sheet all succeed |
| UpdatePayment.FailureMessage | app/premium/update-payment.tsx:52-54 | the catch block's alert text: the first failing step's message, or the default when it is empty |
| UpdatePayment.AttemptCalls | app/premium/update-payment.tsx:36-48 | the setup intent call, then the sheet setup with its secret, then the presentation, each only after the previous step succeeded |
| UpdatePayment.PresentFollowsSetup | app/premium/update-payment.tsx:36-48 | the sheet is presented iff the setup intent was obtained and the sheet set up with its secret |
| UpdatePayment.UpdatePaymentScreen.constructor | app/premium/update-payment.tsx:23-25 | not loading, no message, no success |
| UpdatePayment.UpdatePaymentScreen.ButtonDisabled | app/premium/update-payment.tsx:80 | disabled iff isLoading, the SDK is loading, or success; after a success it stays disabled |
| UpdatePayment.UpdatePaymentScreen.HandleUpdatePayment | app/premium/update-payment.tsx:29-57 | success iff the setup intent, the sheet setup and the sheet all succeed; a failure, cancellation included, leaves success false, clears the message and alerts; isLoading ends false and a success disables the button |
| UpdatePayment.UpdatePaymentScreen.Fail | app/premium/update-payment.tsx:52-54 | the catch block clears the message and alerts `message` or the default |

## Left out

- Rendering, styling, navigation (`router.push`, `router.back`) and the look of the alert dialogs. Each screen logs the dialogs it shows, as `notices` or `alerts`, except where a line below says otherwise.
- The payment SDK and its wrappers (`useSafeStripe`, the Stripe providers). Each `initPaymentSheet` and `presentPaymentSheet` call is an input: completed, cancelled with a message, or failed with a message.
- The HTTP client, its interceptors, AsyncStorage and the thin REST helpers (favourites, delete, e-mail, user services, nearby services, profile). Their results are inputs. The stored token is an input, and storage writes are logged values.
- Timers (`delay(2000)`, `delay(1500)`). Every `await` is a sequential step. React state batching, stale closures and double taps are not modelled.
- Device APIs (location permission, position, reverse geocoding, image picker). Their outcomes are inputs, and a failed position read is modelled as no position.
- ServiceFeed.Feed.HandleNearbyPress: the location helper's own alerts (the missing-permission dialog and its error dialog, shown before it resolves with no position) are not logged; `alerts` records only the feed's own alerts.
- Floating point. Boost prices are integer cents. Scroll metrics are `real`, and coordinates in the feed are integers because the feed only passes them on.
- Regular-expression engines. The e-mail and strength patterns are character-class predicates, proved equal to the patterns read literally.
- Console logging.
- ConfirmPremium.ConfirmPremiumScreen.HandlePayment: the outer `catch` of the source (a payment-sheet promise that rejects rather than resolving with an error) is not modelled, because the adapter always resolves with a result.
- ConfirmBoost.PlanPriceCents: `planPrices[planId]` for an inherited key such as "toString" yields a function, not a number. Such keys are treated like any unknown plan (price 0).
- ConfirmBoost: the boost plan table of the plan-selection screen (30/70/120) differs from the checkout prices. Only the checkout table is modelled.
- Theme.ThemeProvider.Load: a stored object missing `mode` or `system` is treated as a complete pair. The provider's `colorScheme` truthiness is taken as "present".
- PublishedServices.MyServicesScreen.FetchServices: a user-services reply without a services array is not modelled. The reply is a list of records and a page count.
- ServiceFeed.Feed.FetchServices and PublishedServices.MyServicesScreen.FetchServices accept any page number. The invariant `Valid()` (page at least 1), which the load-more and refresh handlers keep, relies on every caller passing 1 or page + 1.
- The owner filter argument of the published-services fetch, and the feed's search range. Both are passed to the backend unchanged.
