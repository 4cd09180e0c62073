# homy — a Dafny model of the web client and the API's business rules

homy is a real-estate agency app: a React front end for realtors (listings,
a listing wizard, showings, registration and e-mail confirmation) over a
Django REST framework back end (properties and their images, showings with a
double-booking check, deals, an audit log, login by e-mail or username).
This project models the parts of both that carry logic, one Dafny module per
source file, and proves what each promises.

The client is modelled as its code is written, except where a defect
listed under "## Findings" is corrected: the members that then use the
corrected helper are named under "## Left out". There is no
refresh-and-retry client: `api.ts` never calls a refresh endpoint. A 401
goes through `handleAuth` (frontend/src/lib/api.ts:10-17), which removes the
stored `access` token, sends the browser to /login and throws. `Api.Browser.HandleAuth`
models exactly that.

Modelling conventions:

- Browser and server effects are state or parameters. Local storage is a
  `map`, the location an `Option`, requests and alerts are appended to
  sequences. A `fetch` reply is given as a parameter (`None` when the request
  throws).
- Each React handler is one atomic step: a `function` from the old state to
  the new one, or a `method` of a page class whose fields are the
  component's state.
- `Number(...)`, `String(number)`, Django's date parsing and
  `URL.createObjectURL` are function parameters (`toNumber`, `showNumber`,
  `parseDay`, `urlOf`). A JavaScript number is `Js.Num`: `NaN`, ±`Infinity` or a finite real.
- Tables are sequences in primary-key order, and a queryset filter is a
  function on them. Times are integers in microseconds, and a date is a day
  number (`Accounts.Day`).
- The loops of the source stay loops (`Feed.MergeById`, `Api.BuildPropertiesQuery`,
  `Wizard.DoneByStep`, `Wizard.UploadAll`, `PropertyViews.CheckFiles`,
  `ShowingSerializer.Overlay`, `EmailVerify.EmailVerifyPage.Write`). Each is
  proved against a specification function, and the properties are proved as
  lemmas about that function. `Register.Strength` keeps the source's
  straight-line `score++` tests and is proved against the criteria set `Met`.
- Objects updated in place are classes: the browser of the API client
  (`Api.Browser`: storage and location), the wizard, registration, e-mail
  confirmation and form pages, the feed loader, the audit log, the showing
  and property stores, and the response the exception handler rewrites
  (`CoreExceptions.Response`). Four of them keep a `Valid()`
  invariant:
  - the wizard: the current step has been visited;
  - the e-mail confirmation page: six boxes, each empty or one digit, and
    the focus on one of them;
  - the property store and the showing store: distinct keys, and for
    showings no double booking.

  The six code boxes of the confirmation page are an `array`.

Helper modules: `Wrappers` (Option, Result), `Text` (digits, trimming,
joining, decimal strings, ASCII case), `SearchParams` (`URLSearchParams` as
a list of pairs), `Js` (numbers and truthiness), `Json` (parsed bodies) and
`Accounts` (users and time units).

## Model

| member | source | states |
|---|---|---|
| Api.Base | frontend/src/lib/api.ts:1 | The base URL is the configured one up to its trailing slashes: a prefix of it, not ending in "/", followed only by "/" characters. |
| Api.BaseIdempotent | frontend/src/lib/api.ts:1 | Removing trailing slashes from an already stripped base changes nothing. |
| Api.Auth | frontend/src/lib/api.ts:5-8 | The headers hold at most `Authorization`, present exactly when a non-empty `access` token is stored, with the value "Bearer " followed by the token. |
| Api.Browser.constructor | frontend/src/lib/api.ts:6 | The client starts from the given stored items and no navigation. |
| Api.Browser.HandleAuth | frontend/src/lib/api.ts:10-17 | A 401 removes `access` from storage, navigates to /login and fails with "Unauthorized"; any other response is passed back with storage and location unchanged. |
| Api.LoginBodyFor | frontend/src/lib/api.ts:20-22 | An identity containing "@" is sent as `email`, any other as `username`, always with the password. |
| Api.Browser.Login | frontend/src/lib/api.ts:19-33 | A JSON POST to BASE + "/auth/login" with that body; a 401 goes through `handleAuth`, another non-2xx reply fails with "Ошибка при логине", a 2xx reply yields its body. |
| Api.NormalizeProperty | frontend/src/lib/api.ts:70-74 | String `price` and `area` become `Number(...)` of the string; non-string values and every other field are kept. |
| Api.NormalizePropertyIdempotent | frontend/src/lib/api.ts:70-74 | Normalising a normalised property changes nothing. |
| Api.BuildPropertiesQuery | frontend/src/lib/api.ts:91-94 | The `forEach` over the entries (none when `params` is missing) builds the query the specification function `PropertiesQuery` describes. |
| Api.PropertiesQueryNames | frontend/src/lib/api.ts:92-93 | The query names are exactly the keys whose value is not undefined, null or "". |
| Api.PropertiesQueryValue | frontend/src/lib/api.ts:93 | A sent key carries `String(v)` of its value. |
| Api.PropertiesQueryUnsent | frontend/src/lib/api.ts:93 | A key whose value is undefined, null or "" is absent from the query. |
| Feed.MergeById | frontend/src/pages/Showings/Showings.tsx:173-181 | The loop over `next` with the `seen` set returns the specification `Merged(prev, next)`. The copy in `frontend/src/pages/Objects/index.tsx` lines 31-42 behaves the same. |
| Feed.MergedKeepsPrefix | frontend/src/pages/Showings/Showings.tsx:175 | `prev` is kept unchanged as a prefix, and at most `|next|` items are added. |
| Feed.MergedKeys | frontend/src/pages/Showings/Showings.tsx:174-179 | The ids of the result are those of `prev` together with those of `next`. |
| Feed.MergedDistinct | frontend/src/pages/Showings/Showings.tsx:176-178 | If `prev` has no repeated id, neither has the result. |
| Feed.MergedAppendsNewInOrder | frontend/src/pages/Showings/Showings.tsx:176-179 | The added items are exactly the items of `next` whose id is new (not in `prev`, not earlier in `next`), in their order. |
| Feed.ErrorText | frontend/src/pages/Showings/Showings.tsx:76-84 | A failed reply shows its text, or "Ошибка загрузки" when that is empty; a throw shows its message, or "Ошибка" when it has none; the text is empty only for a throw with an empty message. |
| Feed.FeedLoader.constructor | frontend/src/pages/Showings/Showings.tsx:31-35 | The feed starts empty at page 1, with more to load, not loading and no error. |
| Feed.FeedLoader.Reset | frontend/src/pages/Showings/Showings.tsx:41-46 | Changing the tab empties the items and the error, and returns to page 1 with more to load. |
| Feed.FeedLoader.NextPage | frontend/src/pages/Showings/Showings.tsx:146-149 | "Show more" advances the page only while there is more and nothing is loading. |
| Feed.FeedLoader.Start | frontend/src/pages/Showings/Showings.tsx:61-65 | A load goes ahead when forced, or when not loading and there is more; then it is loading with no error; otherwise nothing changes. The copy in `frontend/src/pages/Objects/index.tsx` lines 86-90 behaves the same. |
| Feed.FeedLoader.Finish | frontend/src/pages/Showings/Showings.tsx:76-87 | A loaded page is merged in and `hasMore` follows a non-empty `next`; a failure keeps the items and sets the error; loading always ends. The copy in `frontend/src/pages/Objects/index.tsx` lines 126-138 behaves the same. |
| ShowingsPage.ListQuery | frontend/src/pages/Showings/Showings.tsx:68 | The list query has exactly `page` (the page number in decimal) and `range`. |
| ShowingsPage.StatusLabel | frontend/src/pages/Showings/Showings.tsx:182-186 | "done" reads "прошёл", "canceled" reads "отменён", anything else (missing included) "запланирован". |
| ShowingsPage.EditQuery | frontend/src/pages/Showings/Showings.tsx:292-295 | Typing in the property search clears the picked property, so the form cannot be submitted; nothing else changes. |
| ShowingsPage.PickProperty | frontend/src/pages/Showings/Showings.tsx:234-239 | Picking a suggestion records its id and title, shows "title, address" (or the title alone) and closes the suggestions; the form can then be submitted iff the id is truthy, date and time are set and nothing is loading. |
| ShowingsPage.Suggestions | frontend/src/pages/Showings/Showings.tsx:219-232 | A blank query or a failed search gives no suggestions; otherwise the first eight results. |
| ShowingsPage.SubmitError | frontend/src/pages/Showings/Showings.tsx:268 | The error shown is the thrown message when non-empty, else "Не удалось создать показ". |
| ShowingsPage.Submit | frontend/src/pages/Showings/Showings.tsx:241-264 | A payload is sent iff `canSubmit`; it carries the picked property and the ISO time, and each optional text only when non-empty. |
| ShowingsPage.EditAfterPickBlocksSubmit | frontend/src/pages/Showings/Showings.tsx:241-295 | Editing the search text after a pick always blocks submission. |
| ObjectsPage.NormalizePreset | frontend/src/pages/Objects/index.tsx:50-52 | "my" and "drafts" are kept; anything else, missing included, is "duty". |
| ObjectsPage.InitialCategory | frontend/src/pages/Objects/index.tsx:55-59 | The category is the `cat` query value when present, else "". |
| ObjectsPage.LoadPageQuery | frontend/src/pages/Objects/index.tsx:94-116 | The successive `qs.set` calls yield, for every name, the value the specification `PageParam` gives. |
| ObjectsPage.SetPresetParams | frontend/src/pages/Objects/index.tsx:94-99 | The page number, then `published`/`mine` as the preset fixes them. |
| ObjectsPage.SetCategoryParams | frontend/src/pages/Objects/index.tsx:102-104 | "sale"/"rent" set `deal_type`, "newbuild"/"land" set `category`; other names are untouched. |
| ObjectsPage.SetFilterParams | frontend/src/pages/Objects/index.tsx:107-116 | Each truthy filter overrides its name; `mine` only outside "my", `published` only under "my"; other names are untouched. |
| ObjectsPage.PageParamFollowsAppliedFilters | frontend/src/pages/Objects/index.tsx:97-111 | With the filters the bar applies, `published` is the preset's fixed value (or the chosen one under "my"), `mine` follows the applied flag and `page` is the page number. |
| ObjectsPage.PageParamWithoutFilters | frontend/src/pages/Objects/index.tsx:94-116 | Without filters only `page`, `published`, `mine`, `deal_type` and `category` can be sent. |
| ObjectsPage.SelectCategory | frontend/src/pages/Objects/index.tsx:144-150 | Choosing a category sets `cat` to it (or deletes `cat` for "") and leaves every other query name as it was. |
| ObjectsPage.SelectedCategoryIsInitial | frontend/src/pages/Objects/index.tsx:55-150 | Reading the category back from the rewritten query gives the chosen one. |
| ObjectFilters.Initial | frontend/src/pages/Objects/Filters.tsx:22-39 | The initial filters read the query; `mine` is on for `mine=1` or the "my" preset; `published` is forced to "1"/"0" by "duty"/"drafts" and otherwise taken only when it is "1" or "0". |
| ObjectFilters.Applied | frontend/src/pages/Objects/Filters.tsx:61-71 | The applied filters keep the edited ones except that `mine` and `published` are forced where the preset fixes them. |
| ObjectFilters.Apply | frontend/src/pages/Objects/Filters.tsx:51-72 | The successive `next.set` calls write exactly the names `Written` gives, and the filters handed on are `Applied`. |
| ObjectFilters.ClearAll | frontend/src/pages/Objects/Filters.tsx:74-92 | Clearing empties the texts and the query and keeps only what the preset forces; the form and the applied filters agree. |
| ObjectFilters.ClearedIsInitialOfEmptyQuery | frontend/src/pages/Objects/Filters.tsx:22-92 | The cleared filters are the initial filters of an empty query, applying them changes nothing and they write no query name. |
| ObjectFilters.AppliedHonoursPreset | frontend/src/pages/Objects/Filters.tsx:63-70 | "my" always applies `mine`, "duty" publishes "1", "drafts" "0", and applying twice is applying once. |
| ObjectFilters.InitialAfterApply | frontend/src/pages/Objects/Filters.tsx:22-71 | Reading back the query that `apply` wrote gives the applied filters (round trip). |
| ObjectFilters.EditPriceMin | frontend/src/pages/Objects/Filters.tsx:121 | The minimum price becomes the digits of the typed text, in order (a digit string unchanged); no other filter changes. |
| ObjectFilters.EditPriceMax | frontend/src/pages/Objects/Filters.tsx:130 | The maximum price becomes the digits of the typed text, in order (a digit string unchanged); no other filter changes. |
| PropertiesList.PageOf | frontend/src/pages/PropertiesList.tsx:10 | The page is `Number` of the `page` parameter, or 1 when it is missing or empty. |
| PropertiesList.DealType | frontend/src/pages/PropertiesList.tsx:12-13 | The deal type is sent only when it is "sale" or "rent". |
| PropertiesList.Ordering | frontend/src/pages/PropertiesList.tsx:18 | The ordering is the parameter when non-empty, else "-created_at" (newest first). |
| PropertiesList.NumberOrUndefined | frontend/src/pages/PropertiesList.tsx:36-38 | Exactly the empty text becomes undefined; any other text becomes a number. |
| PropertiesList.RequestParam | frontend/src/pages/PropertiesList.tsx:31-41 | Each of the nine request entries is in the query exactly when its value is sent, as `String(v)`. |
| PropertiesList.RequestQuery | frontend/src/pages/PropertiesList.tsx:10-41 | The request carries the page, page size 20, the ordering, a valid deal type, and the other filters exactly when they are non-empty. |
| PropertiesList.SetParam | frontend/src/pages/PropertiesList.tsx:20-25 | Setting a filter writes it (or deletes it when empty), forces `page=1` and leaves the other names alone. |
| PropertiesList.SetParamShowsFirstPage | frontend/src/pages/PropertiesList.tsx:10-23 | After any filter change the page read back is `Number("1")`. |
| PropertiesList.Reset | frontend/src/pages/PropertiesList.tsx:85 | Reset leaves exactly `page=1`. |
| PropertiesList.ResetRestoresDefaults | frontend/src/pages/PropertiesList.tsx:12-85 | After reset every text filter is empty, no deal type is sent and the ordering is "-created_at". |
| PropertiesList.TotalPages | frontend/src/pages/PropertiesList.tsx:49 | The page count is at least 1 and is the least number of 20-item pages that hold `count` items. |
| PropertiesList.PagerBothDisabled | frontend/src/pages/PropertiesList.tsx:112-122 | Both pager buttons are disabled exactly when on page 1 of a single page. |
| PropertiesList.PagerInside | frontend/src/pages/PropertiesList.tsx:112-122 | Strictly between the first and last page both buttons are enabled. |
| PropertiesList.Shifted | frontend/src/pages/PropertiesList.tsx:114-124 | `page − 1` and `page + 1` on a JavaScript number: a finite page moves by the step, any other stays as it is. |
| PropertiesList.Turn | frontend/src/pages/PropertiesList.tsx:111-125 | A pager click writes `page` as the shifted page's text and keeps every other parameter at its last value, with the same names plus `page`. |
| PropertiesList.TurnMovesOnePage | frontend/src/pages/PropertiesList.tsx:111-125 | Where the number prints and reads back, a pager click moves exactly one page and keeps every other filter. |
| SearchParams.FromEntriesSpec | frontend/src/pages/PropertiesList.tsx:114 | `Object.fromEntries(params)` keeps every name once, and each name holds the value of its last pair. |
| Register.Strength | frontend/src/pages/Register/Register.tsx:19-27 | The score is the number of criteria the password meets, between 0 and 4, with the length counted in UTF-16 code units as `password.length` counts it. |
| Register.CriteriaCount | frontend/src/pages/Register/Register.tsx:22-25 | The criteria met count one each: length at least 6, not only digits, a letter and a digit, a symbol. |
| Register.EmptyPasswordStrength | frontend/src/pages/Register/Register.tsx:15-23 | An empty password meets exactly one criterion ("not only digits"), since `isNumericOnly("")` is false. |
| Register.DigitPasswordStrength | frontend/src/pages/Register/Register.tsx:22-25 | A long all-digit password meets only the length criterion. |
| Js.Length | frontend/src/pages/Register/Register.tsx:22 | `length` counts UTF-16 code units: between the number of characters and twice it, and equal to it exactly when no character lies above U+FFFF. |
| Register.ThreeEmojiLongEnough | frontend/src/pages/Register/Register.tsx:22 | Example for `Js.Length`: three emoji are three characters but six UTF-16 code units, so they meet the length criterion, and also "not only digits" and "symbol". |
| Register.PasswordError | frontend/src/pages/Register/Register.tsx:82-84 | No password message exactly when the password has at least 6 UTF-16 code units and is not all digits; otherwise the empty, short and all-digit messages in that order. |
| Register.Validate | frontend/src/pages/Register/Register.tsx:78-87 | The loop's messages are those of `FormErrors`: each field gets its message exactly when it fails its check, and the form has errors exactly when it is not valid. |
| Register.FormErrors | frontend/src/pages/Register/Register.tsx:78-87 | The messages of a form: it has a message exactly when it is not valid. |
| Register.ClearOnEdit | frontend/src/pages/Register/Register.tsx:45-49 | Editing a field clears that field's message and the general one, keeps every other field's message, and keeps the "too common" flag. |
| Register.FirstMessageTruncatesString | frontend/src/pages/Register/Register.tsx:58-59 | As written, a string error "This field is required." is shown as "T". |
| Register.FirstMessageAsWritten | frontend/src/pages/Register/Register.tsx:58-66 | `String(x[0] || x)` as written: a non-empty string gives its first character; an array its first element and an object its own key "0", each when truthy; otherwise `String(x)`. `FirstMessage` agrees with it on every value that is not a string. |
| Register.FirstMessageReadsKeyZero | frontend/src/pages/Register/Register.tsx:59 | Example: an error object `{"0": "bad"}` is shown as "bad", as written and corrected alike. |
| Register.FirstMessage | frontend/src/pages/Register/Register.tsx:58-66 | A string error is shown whole; a list shows its first element and an object its own key "0", each when truthy; any other value is `String(x)`, and every value that is not a string is shown as the code does. |
| Register.PasswordMessages | frontend/src/pages/Register/Register.tsx:61 | A list gives one message per item, item i shown as `String` of item i; any other value gives the one-element list of `String(value)`. |
| Register.AnyTooCommon | frontend/src/pages/Register/Register.tsx:64 | True exactly when some message contains "too common", ignoring case. |
| Register.GeneralMessage | frontend/src/pages/Register/Register.tsx:66-67 | `detail` wins over `non_field_errors`; with neither there is no general message (corrected `FirstMessage`). |
| Register.EmailMessage | frontend/src/pages/Register/Register.tsx:58-59 | `email` wins over `username`; with neither there is no e-mail message (corrected `FirstMessage`). |
| Register.ParseServerError | frontend/src/pages/Register/Register.tsx:52-74 | A body that is not JSON (or is null) becomes the general message, or "Ошибка регистрации" when empty; otherwise the e-mail, password and general messages follow the recognised keys, and a non-empty body that fills none of them is shown as it is (corrected `FirstMessage`). |
| Register.ParseTakenEmail | frontend/src/pages/Register/Register.tsx:59 | The server's "user with this email already exists." reaches the e-mail field whole. |
| Register.RegisterPage.constructor | frontend/src/pages/Register/Register.tsx:39-40 | The page starts with no messages, not loading, the browser's storage as given and no navigation. |
| Register.RegisterPage.OnSubmit | frontend/src/pages/Register/Register.tsx:76-140 | An invalid form sends nothing and shows exactly the messages of `FormErrors`; a valid one posts the registration with the trimmed e-mail, logs in only after a successful registration, and ends not loading with the outcome `SentOutcome` describes (corrected `FirstMessage`). |
| Register.RegisterPage.Send | frontend/src/pages/Register/Register.tsx:92-136 | Registration, then login only after success; a thrown request gives the network message; a failed login asks to log in by hand; only a successful login stores both tokens and goes to /dashboard (corrected `FirstMessage`). |
| PropertyForm.IndexOf | frontend/src/components/PropertyForm.tsx:3 | The position of the first occurrence of a character, or none exactly when it does not occur. |
| PropertyForm.ReplaceFirstComma | frontend/src/components/PropertyForm.tsx:3 | Only the first comma becomes a dot; the length is kept and a text without a comma is unchanged. |
| PropertyForm.ToNum | frontend/src/components/PropertyForm.tsx:3 | `Number(String(v).replace(",", "."))`; its properties are `ToNumWithoutComma`, `ToNumFirstCommaIsPoint` and `ToNumDecimalComma`. |
| PropertyForm.ToNumWithoutComma | frontend/src/components/PropertyForm.tsx:3 | Text without a comma is read by `Number` as it stands. |
| PropertyForm.ToNumFirstCommaIsPoint | frontend/src/components/PropertyForm.tsx:3 | Text with a comma is read as the same text with its first comma made a point. |
| PropertyForm.ToNumDecimalComma | frontend/src/components/PropertyForm.tsx:3 | Example for `ToNumFirstCommaIsPoint`: "12,5" is read as the number of "12.5". |
| PropertyForm.MessageIf | frontend/src/components/PropertyForm.tsx:32-44 | A message is set exactly when its check fails. |
| PropertyForm.Messages | frontend/src/components/PropertyForm.tsx:30-47 | The messages of a set of values: none at all exactly when the values are acceptable. |
| PropertyForm.Validate | frontend/src/components/PropertyForm.tsx:30-47 | The messages are those of `Messages`: each field has its own text ("Введите заголовок" and the rest) exactly when it fails, a blank title, address or district, an empty deal type or status, rooms below 1 or not finite, area or price not positive or not finite; none at all exactly when the values are acceptable. |
| PropertyForm.Cleaned | frontend/src/components/PropertyForm.tsx:51-57 | Rooms, area and price become the numbers `toNum` reads from them; every other field is kept. |
| PropertyForm.FormState.constructor | frontend/src/components/PropertyForm.tsx:26-28 | The form starts from the initial values, not saving and without messages. |
| PropertyForm.FormState.Submit | frontend/src/components/PropertyForm.tsx:49-69 | The messages become those of the cleaned values; the save callback gets the cleaned values exactly when they pass the checks, and the messages are cleared exactly then; saving ends afterwards; a throw of the callback propagates. |
| Wizard.OrUndefined | frontend/src/pages/PropertyCreate/Wizard.tsx:114-131 | `x \|\| undefined`: kept exactly when given and non-empty. |
| Wizard.ListOrUndefined | frontend/src/pages/PropertyCreate/Wizard.tsx:128-129 | A list is sent exactly when present and non-empty. |
| Wizard.KindLabelAsWritten | frontend/src/pages/PropertyCreate/Wizard.tsx:94-105 | As written: no kind reads "Объект", a kind in `KIND_LABEL` its label, any other kind "undefined". |
| Wizard.UnlabelledSelectableKinds | frontend/src/pages/PropertyCreate/steps/StepSelectType.tsx:4-10 | Of the six kinds the picker offers, all but "commercial" and "parking" are missing from `KIND_LABEL` and read "undefined". |
| Wizard.ApartmentTitleAsWritten | frontend/src/pages/PropertyCreate/Wizard.tsx:105-107 | As written, an apartment without a city is titled "undefined". |
| Wizard.KindLabel | frontend/src/pages/PropertyCreate/Wizard.tsx:105 | Corrected: a kind's label from the table, or "Объект" for any kind the table lacks. |
| Wizard.KindLabelNeverUndefined | frontend/src/pages/PropertyCreate/Wizard.tsx:105 | With the fallback no title reads "undefined". |
| Wizard.TitleAsWritten | frontend/src/pages/PropertyCreate/Wizard.tsx:104-107 | The title as written, from `KindLabelAsWritten`; `ApartmentTitleAsWritten` shows it reading "undefined". |
| Wizard.Title | frontend/src/pages/PropertyCreate/Wizard.tsx:104-107 | The title with the corrected label; `KindLabelNeverUndefined` shows it never reads "undefined". |
| Wizard.TitlesAgreeOnLabelledKinds | frontend/src/pages/PropertyCreate/Wizard.tsx:94-107 | Where the kind is missing or has a label, the corrected title is the title as written. |
| Wizard.Present | frontend/src/pages/PropertyCreate/Wizard.tsx:110 | `filter(Boolean)` keeps only given, non-empty parts, and is empty exactly when no part is given. |
| Wizard.PresentFive | frontend/src/pages/PropertyCreate/Wizard.tsx:109-110 | Five non-empty parts are all kept, in order. |
| Wizard.JoinFive | frontend/src/pages/PropertyCreate/Wizard.tsx:111 | Joining five parts puts the separator between each pair. |
| Wizard.FullAddress | frontend/src/pages/PropertyCreate/Wizard.tsx:109-111 | With every part given the address is "city, district, microdistrict, street, house". |
| Wizard.CityAndStreetAddress | frontend/src/pages/PropertyCreate/Wizard.tsx:109-111 | With only city and street the address is "city, street". |
| Wizard.PriceOf | frontend/src/pages/PropertyCreate/Wizard.tsx:118 | The price is the number of the sale or rent price, as the deal says, or 0 when missing or not truthy. |
| Wizard.ToApi | frontend/src/pages/PropertyCreate/Wizard.tsx:104-133 | `toApi(data)` with the corrected `Title`; its fields are stated by `ToApiFields`. |
| Wizard.ToApiFields | frontend/src/pages/PropertyCreate/Wizard.tsx:104-133 | The payload's title (corrected `Title`), address and price are those above; the deal type is "sale" exactly for a sale, else "rent"; the status defaults to "active"; the optional fields are sent only when set. |
| Wizard.Index | frontend/src/pages/PropertyCreate/Wizard.tsx:76-153 | Each step has exactly one position in the eight-step flow. |
| Wizard.Complete | frontend/src/pages/PropertyCreate/Wizard.tsx:162-171 | The `validators` of each step; their rules are stated by `PriceStepFollowsDeal`, `DetailsFloorRule` and `BlankTextIncomplete`. |
| Wizard.PriceStepFollowsDeal | frontend/src/pages/PropertyCreate/Wizard.tsx:164 | The price step needs the sale price for a sale and the rent price otherwise, no deal included. |
| Wizard.DetailsFloorRule | frontend/src/pages/PropertyCreate/Wizard.tsx:165-167 | Parking needs no floor; any other kind does. |
| Wizard.BlankTextIncomplete | frontend/src/pages/PropertyCreate/Wizard.tsx:168-171 | A description or phone of spaces does not complete its step. |
| Wizard.DoneByStep | frontend/src/pages/PropertyCreate/Wizard.tsx:175-184 | Every step gets a mark: documents once visited, the others by their check. |
| Wizard.Next | frontend/src/pages/PropertyCreate/Wizard.tsx:189 | The next position, or the same on the last step. |
| Wizard.Prev | frontend/src/pages/PropertyCreate/Wizard.tsx:190 | The previous position, or the same on the first step. |
| Wizard.NextPrevInverse | frontend/src/pages/PropertyCreate/Wizard.tsx:189-190 | Back after next, and next after back, return to the step, away from the ends. |
| Wizard.AlertText | frontend/src/pages/PropertyCreate/Wizard.tsx:210 | The alert is the thrown message when non-empty, else "Не удалось создать объект"; never empty. |
| Wizard.UploadsFromSpec | frontend/src/pages/PropertyCreate/Wizard.tsx:202-206 | One upload per file to the created id, in order, stopping at the first that throws, whose message is reported; without a throw every file is uploaded. |
| Wizard.SubmitSequence | frontend/src/pages/PropertyCreate/Wizard.tsx:192-213 | A submit starts with the create of `toApi(data)` (corrected `Title`); a failed create is all it sends; a successful one is followed by one upload per file when none throws, and then reports no error. |
| Wizard.UploadAll | frontend/src/pages/PropertyCreate/Wizard.tsx:203-205 | The loop makes exactly the uploads and reports exactly the failure `UploadsFrom` describes. |
| Wizard.WizardPage.constructor | frontend/src/pages/PropertyCreate/Wizard.tsx:136-146 | The wizard starts on "select", with it visited, the initial draft and nothing sent. |
| Wizard.WizardPage.Show | frontend/src/pages/PropertyCreate/Wizard.tsx:156-249 | Clicking a bar shows its step and marks it visited, the step left stays visited and the invariant is kept; nothing else changes. |
| Wizard.WizardPage.GoNext | frontend/src/pages/PropertyCreate/Wizard.tsx:156-189 | Moves to the next step and marks it visited, the step left stays visited and the invariant is kept; nothing else changes. |
| Wizard.WizardPage.GoPrev | frontend/src/pages/PropertyCreate/Wizard.tsx:156-190 | Moves to the previous step and marks it visited, the step left stays visited and the invariant is kept; nothing else changes. |
| Wizard.WizardPage.HandleSubmit | frontend/src/pages/PropertyCreate/Wizard.tsx:192-214 | Nothing while submitting; otherwise the create of `toApi(data)` (corrected `Title`) and the uploads, then "/objects/my" without error or one alert with the message; submitting ends false. |
| Wizard.WizardPage.Run | frontend/src/pages/PropertyCreate/Wizard.tsx:195-211 | The requests made and the one effect (navigation or alert) for a given payload, create outcome and files. |
| Wizard.WizardPage.Created | frontend/src/pages/PropertyCreate/Wizard.tsx:202-208 | After a successful create, the uploads and then navigation, or an alert when an upload throws. |
| Wizard.WizardPage.Primary | frontend/src/pages/PropertyCreate/Wizard.tsx:187-322 | The footer button does nothing on an incomplete step or while submitting; otherwise on a step before the last it moves to the next step, marks it visited and sends nothing; on the last step it submits as `HandleSubmit` does: the create of the draft (corrected `Title`) followed by its uploads, then "/objects/my" without error or one alert with the message, the steps visited unchanged and submitting ended; the invariant is kept. |
| StepAddress.MicroOptions | frontend/src/pages/PropertyCreate/steps/StepAddress.tsx:26-29 | Options exist exactly when the district is a known one, and then are its list. |
| StepAddress.EveryDistrictHasOptions | frontend/src/pages/PropertyCreate/steps/StepAddress.tsx:6-13 | Every selectable district has microdistrict options. |
| StepAddress.PickDistrict | frontend/src/pages/PropertyCreate/steps/StepAddress.tsx:32-39 | Sets the district and closes the menu; the microdistrict is kept when it belongs to the new district and reset to "" otherwise; nothing else changes. |
| StepAddress.PickCity | frontend/src/pages/PropertyCreate/steps/StepAddress.tsx:42-45 | Sets the city and closes the menu; nothing else changes. |
| StepAddress.PickMicro | frontend/src/pages/PropertyCreate/steps/StepAddress.tsx:47-50 | Sets the microdistrict and closes the menu; nothing else changes. |
| StepAddress.PicksKeepMicroConsistent | frontend/src/pages/PropertyCreate/steps/StepAddress.tsx:32-50 | After picking a district the microdistrict is empty or belongs to it; picking a city or an offered microdistrict keeps that. |
| StepAddress.ToggleMenu | frontend/src/pages/PropertyCreate/steps/StepAddress.tsx:62-84 | The city and district links open their menu when it is not open and close it when it is. |
| StepAddress.ToggleMicroMenu | frontend/src/pages/PropertyCreate/steps/StepAddress.tsx:106 | Without options the click changes nothing; with options it toggles the microdistrict menu. |
| StepAddress.MicroMenuNeedsOptions | frontend/src/pages/PropertyCreate/steps/StepAddress.tsx:27-106 | The microdistrict menu opens exactly when a known district is chosen. |
| StepDocuments.Distinct | frontend/src/pages/PropertyCreate/steps/StepDocuments.tsx:27-29 | `Array.from(new Set(arr))`: no repeats, the same members, no longer. |
| StepDocuments.DistinctOfDistinct | frontend/src/pages/PropertyCreate/steps/StepDocuments.tsx:27-29 | A list without repeats passes through the set unchanged. |
| StepDocuments.Without | frontend/src/pages/PropertyCreate/steps/StepDocuments.tsx:28 | `set.delete(v)`: the members other than `v`, still without repeats. |
| StepDocuments.Toggle | frontend/src/pages/PropertyCreate/steps/StepDocuments.tsx:26-30 | The result has no repeats, holds `v` exactly when the list did not, and every other value exactly when the list did. |
| StepDocuments.ToggleTwice | frontend/src/pages/PropertyCreate/steps/StepDocuments.tsx:76-100 | Ticking a box twice gives back the same members. |
| StepDocuments.ToggleAppends | frontend/src/pages/PropertyCreate/steps/StepDocuments.tsx:28-29 | Ticking a new value appends it at the end. |
| StepDocuments.OnFiles | frontend/src/pages/PropertyCreate/steps/StepDocuments.tsx:37-43 | No files changes nothing; otherwise they are appended to the plans and nothing else changes. |
| StepDocuments.Splice1 | frontend/src/pages/PropertyCreate/steps/StepDocuments.tsx:46-47 | `splice(idx, 1)`, negative indices counting from the end: one element removed at the start position when it exists, else nothing. |
| StepDocuments.RemoveAt | frontend/src/pages/PropertyCreate/steps/StepDocuments.tsx:45-49 | The plans become the spliced copy; nothing else changes. |
| StepDocuments.RemoveAtUndoesOnFiles | frontend/src/pages/PropertyCreate/steps/StepDocuments.tsx:37-49 | Removing the file just added restores the plans. |
| StepDocuments.RemoveAtValid | frontend/src/pages/PropertyCreate/steps/StepDocuments.tsx:136-160 | Removing a shown index drops exactly that file. |
| StepPhotos.OnFiles | frontend/src/pages/PropertyCreate/steps/StepPhotos.tsx:18-23 | No files changes nothing; otherwise one object URL per file, in order, is appended to the photos. |
| StepPhotos.Remove | frontend/src/pages/PropertyCreate/steps/StepPhotos.tsx:25-27 | The photo at the index is dropped when it exists; an index outside leaves the photos; nothing else changes. |
| StepPhotos.DropIndex | frontend/src/pages/PropertyCreate/steps/StepPhotos.tsx:26 | `filter((_, i) => i !== idx)` over a suffix: drops exactly position `idx`. |
| StepPhotos.RemoveValid | frontend/src/pages/PropertyCreate/steps/StepPhotos.tsx:26-38 | Removing a shown photo shortens the list by one and shifts the later ones down. |
| StepPhotos.RemoveUndoesOnFiles | frontend/src/pages/PropertyCreate/steps/StepPhotos.tsx:18-27 | Removing the photo just added restores the list. |
| StepContacts.KeepNonEmpty | frontend/src/pages/PropertyCreate/steps/StepContacts.tsx:22 | `filter(Boolean)` keeps only non-empty parts, all of them when none is empty. |
| StepContacts.KeptDigits | frontend/src/pages/PropertyCreate/steps/StepContacts.tsx:13-18 | The digits of the input, cut to the first nine. |
| StepContacts.Grouped | frontend/src/pages/PropertyCreate/steps/StepContacts.tsx:19-23 | The digits in groups of three joined by spaces; stated by `GroupedShape` and `GroupedDigits`. |
| StepContacts.GroupedShape | frontend/src/pages/PropertyCreate/steps/StepContacts.tsx:19-23 | Up to nine digits are grouped 3, 3, 3 with single spaces and no trailing space. |
| StepContacts.GroupedDigits | frontend/src/pages/PropertyCreate/steps/StepContacts.tsx:19-23 | Removing the spaces from the grouping gives the digits back. |
| StepContacts.FormatKgPhone | frontend/src/pages/PropertyCreate/steps/StepContacts.tsx:10-24 | `formatKgPhone`; stated by `FormatKgPhoneSpec` and `FormatIdempotent`. |
| StepContacts.FormatKgPhoneSpec | frontend/src/pages/PropertyCreate/steps/StepContacts.tsx:10-24 | The result starts with "+996 ", its digits after the prefix are the kept digits, and it is the bare prefix exactly when no digit was typed. |
| StepContacts.FormatIdempotent | frontend/src/pages/PropertyCreate/steps/StepContacts.tsx:17-38 | Formatting what follows the prefix of a formatted number gives it back. |
| StepContacts.Displayed | frontend/src/pages/PropertyCreate/steps/StepContacts.tsx:28-30 | The field shows the stored phone when it starts with "+996", else the prefix. |
| StepContacts.HandleChange | frontend/src/pages/PropertyCreate/steps/StepContacts.tsx:32-40 | The phone becomes the formatting of the text after the prefix (or of the whole text without it); nothing else changes. |
| StepContacts.ChangeKeepsFormatted | frontend/src/pages/PropertyCreate/steps/StepContacts.tsx:28-40 | Re-entering a formatted number keeps it and shows it. |
| StepContacts.KeyDown | frontend/src/pages/PropertyCreate/steps/StepContacts.tsx:42-70 | Backspace or Delete into the prefix is prevented and moves the caret; other keys are let through exactly when allowed and not a tenth digit. |
| StepContacts.DigitKeyLimit | frontend/src/pages/PropertyCreate/steps/StepContacts.tsx:65-69 | A digit typed after the prefix is refused exactly when nine digits are already there. |
| StepContacts.PasteAsWritten | frontend/src/pages/PropertyCreate/steps/StepContacts.tsx:72-77 | As written, the pasted text is formatted whole, its "+996" included. |
| StepContacts.PasteKeepsCountryCode | frontend/src/pages/PropertyCreate/steps/StepContacts.tsx:72-77 | As written, pasting "+996 555 123 456" stores "+996 996 555 123". |
| StepContacts.Paste | frontend/src/pages/PropertyCreate/steps/StepContacts.tsx:72-77 | Corrected: a leading "+996" is dropped before formatting, as the change handler drops its prefix; nothing else changes. |
| StepContacts.PasteFormatted | frontend/src/pages/PropertyCreate/steps/StepContacts.tsx:72-77 | With the correction, pasting a formatted number stores it unchanged. |
| EmailVerify.FillSlots | frontend/src/pages/EmailVerifyPage/EmailVerifyPage.tsx:47-75 | Writing digits from a box on fills one box per digit, stops after the sixth box and leaves every other box as it was. |
| EmailVerify.FillKeepsSlots | frontend/src/pages/EmailVerifyPage/EmailVerifyPage.tsx:47-75 | Writing digits keeps every box empty or one digit. |
| EmailVerify.Fill | frontend/src/pages/EmailVerifyPage/EmailVerifyPage.tsx:47-75 | The copy loop's result: one character per box from the box given on, until the boxes run out. |
| EmailVerify.Typed | frontend/src/pages/EmailVerifyPage/EmailVerifyPage.tsx:38-53 | What typing does to the boxes; stated by `TypedSlots`. |
| EmailVerify.TypedSlots | frontend/src/pages/EmailVerifyPage/EmailVerifyPage.tsx:38-53 | Typing at most one digit sets that box alone (empty when none); typing several spreads them over the following boxes; earlier boxes never change. |
| EmailVerify.PasteWholeCode | frontend/src/pages/EmailVerifyPage/EmailVerifyPage.tsx:69-80 | Pasting six digits into the first box fills the six boxes with them. |
| EmailVerify.Pasted | frontend/src/pages/EmailVerifyPage/EmailVerifyPage.tsx:69-80 | What a paste does to the boxes: nothing without a digit, else the digits from the box on; stated by `PasteWholeCode`. |
| EmailVerify.JoinWidth | frontend/src/pages/EmailVerifyPage/EmailVerifyPage.tsx:82 | The joined code is as long as the boxes' contents together. |
| EmailVerify.WidthFull | frontend/src/pages/EmailVerifyPage/EmailVerifyPage.tsx:82-83 | With each box empty or one digit, the joined code has one character per box exactly when no box is empty. |
| EmailVerify.Ready | frontend/src/pages/EmailVerifyPage/EmailVerifyPage.tsx:83 | `canSubmit`; stated by `ReadyIff`. |
| EmailVerify.ReadyIff | frontend/src/pages/EmailVerifyPage/EmailVerifyPage.tsx:83 | The code can be submitted exactly when there is an e-mail, no submit is under way and all six boxes hold a digit. |
| EmailVerify.ClearedNotReady | frontend/src/pages/EmailVerifyPage/EmailVerifyPage.tsx:83-98 | A cleared code cannot be submitted. |
| EmailVerify.TicksFloor | frontend/src/pages/EmailVerifyPage/EmailVerifyPage.tsx:32 | After `n` ticks the cooldown is `s − n`, and never below 0. |
| EmailVerify.ResendAfterSixty | frontend/src/pages/EmailVerifyPage/EmailVerifyPage.tsx:28-106 | The cooldown reaches 0, and resend is possible again, exactly after sixty ticks. |
| EmailVerify.EmailVerifyPage.constructor | frontend/src/pages/EmailVerifyPage/EmailVerifyPage.tsx:21-28 | The page opens with the link's e-mail, six empty boxes, the first focused, a cooldown of 60, and the notice naming the address when there is one. |
| EmailVerify.EmailVerifyPage.SetEmail | frontend/src/pages/EmailVerifyPage/EmailVerifyPage.tsx:125-135 | Without an e-mail in the link, the typed address becomes the e-mail. |
| EmailVerify.EmailVerifyPage.Write | frontend/src/pages/EmailVerifyPage/EmailVerifyPage.tsx:47-75 | The loop over the digits writes the boxes exactly as `Fill` describes and keeps them valid. |
| EmailVerify.EmailVerifyPage.HandleChange | frontend/src/pages/EmailVerifyPage/EmailVerifyPage.tsx:38-53 | The boxes become the typed result, the error is cleared, and the focus moves to the next box after one digit (and stays on the last box or when no digit was typed), or after several digits to box `idx + |digits|`, capped at the last box. The copy in `frontend/src/pages/EmailVerifyPage.tsx` lines 39-54 behaves the same. |
| EmailVerify.EmailVerifyPage.HandleKeyDown | frontend/src/pages/EmailVerifyPage/EmailVerifyPage.tsx:55-67 | Backspace in an empty box after the first clears the box before it, moves there and is cancelled, exactly then; an uncancelled Backspace leaves the focus where it was; the arrows move the focus one box, not past the ends. The copy in `frontend/src/pages/EmailVerifyPage.tsx` lines 56-68 behaves the same. |
| EmailVerify.EmailVerifyPage.HandlePaste | frontend/src/pages/EmailVerifyPage/EmailVerifyPage.tsx:69-80 | A paste without digits changes nothing; otherwise the digits fill the boxes from this one and the focus goes to the last digit written. The copy in `frontend/src/pages/EmailVerifyPage.tsx` lines 70-81 behaves the same. |
| EmailVerify.EmailVerifyPage.Clear | frontend/src/pages/EmailVerifyPage/EmailVerifyPage.tsx:98-99 | All six boxes empty and the focus on the first. |
| EmailVerify.EmailVerifyPage.Submit | frontend/src/pages/EmailVerifyPage/EmailVerifyPage.tsx:85-103 | Nothing unless ready; otherwise the tokens are stored and the page goes to /dashboard, or the error is shown and the code cleared; the submit is over afterwards. The copy in `frontend/src/pages/EmailVerifyPage.tsx` lines 83-104 behaves the same. |
| EmailVerify.EmailVerifyPage.TickCooldown | frontend/src/pages/EmailVerifyPage/EmailVerifyPage.tsx:32 | One tick lowers the cooldown by one, stopping at 0. |
| EmailVerify.EmailVerifyPage.Resend | frontend/src/pages/EmailVerifyPage/EmailVerifyPage.tsx:105-117 | Refused without an e-mail or while the cooldown runs; on success the notice names the address, the cooldown restarts at 60 and the code is cleared; on failure only the error is shown. The copy in `frontend/src/pages/EmailVerifyPage.tsx` lines 106-118 behaves the same. |
| CoreExceptions.Response.constructor | backend/core/exceptions.py:12 | A response with the given status and body. |
| CoreExceptions.CustomExceptionHandler | backend/core/exceptions.py:5-49 | No response is passed back as it is; otherwise the same response comes back with its body replaced by the normalised dictionary. |
| CoreExceptions.ByException | backend/core/exceptions.py:19-27 | The first rewriting step, by exception class; stated by `NotAuthenticatedMessage`, `PermissionDeniedDefault` and `PermissionDeniedKeepsCustom`. |
| CoreExceptions.ByStatus | backend/core/exceptions.py:30-38 | The second step, by status; stated by `EnglishUnauthenticatedRewritten` and `DefaultDeniedRewritten`. |
| CoreExceptions.ByCode | backend/core/exceptions.py:44-45 | The third step, by token code; stated by `TokenCodeWins`. |
| CoreExceptions.Normalized | backend/core/exceptions.py:16-45 | The three steps in order; stated by `OnlyDetailChanges`, `DetailIsKeptOrRussian` and `NormalizedIdempotent`. |
| CoreExceptions.OnlyDetailChanges | backend/core/exceptions.py:16-45 | Normalising touches only `detail`: every other key of a dictionary body is kept with its value. |
| CoreExceptions.NonDictReplaced | backend/core/exceptions.py:16 | A body that is not a dictionary is replaced by one holding at most `detail`. |
| CoreExceptions.TokenCodeWins | backend/core/exceptions.py:44-45 | A body with `code` "token_not_valid" always ends with the refresh-token message, whatever came before. |
| CoreExceptions.NotAuthenticatedMessage | backend/core/exceptions.py:19-20 | A missing authentication reads "Требуется аутентификация", unless the token rule applies. |
| CoreExceptions.PermissionDeniedDefault | backend/core/exceptions.py:21-27 | A refusal with DRF's default message (or already "Недостаточно прав") reads "Недостаточно прав". |
| CoreExceptions.PermissionDeniedKeepsCustom | backend/core/exceptions.py:21-38 | A refusal with its own message (such as the object permission's) keeps the whole body unchanged. |
| CoreExceptions.EnglishUnauthenticatedRewritten | backend/core/exceptions.py:30-35 | On a 401 the three English authentication messages read "Требуется аутентификация". |
| CoreExceptions.DefaultDeniedRewritten | backend/core/exceptions.py:37-38 | On a 403 DRF's English refusal reads "Недостаточно прав". |
| CoreExceptions.DetailIsKeptOrRussian | backend/core/exceptions.py:19-45 | The final `detail` is the body's own or one of the three Russian messages. |
| CoreExceptions.NormalizedIdempotent | backend/core/exceptions.py:16-45 | Normalising a normalised body changes nothing. |
| PropertyPermissions.HasPermission | backend/properties/permissions.py:10-12 | The view-level check lets every request through. |
| PropertyPermissions.HasObjectPermission | backend/properties/permissions.py:14-30 | `has_object_permission`; stated by `SafeAlwaysAllowed`, `StaffAlwaysAllowed`, `WriteIffOwner`, `RealtorShadowsCreator` and `NoOwnerNoWrite`. |
| PropertyPermissions.SafeAlwaysAllowed | backend/properties/permissions.py:16-17 | GET, HEAD and OPTIONS are allowed to anyone on any object. |
| PropertyPermissions.StaffAlwaysAllowed | backend/properties/permissions.py:20-21 | Staff may write any object. |
| PropertyPermissions.WriteIffOwner | backend/properties/permissions.py:24-30 | For anyone else a write is allowed exactly when the realtor is the user, or there is no realtor and the creator is the user. |
| PropertyPermissions.RealtorShadowsCreator | backend/properties/permissions.py:24-28 | The creator may not write an object that has another realtor. |
| PropertyPermissions.NoOwnerNoWrite | backend/properties/permissions.py:24-30 | An anonymous user never writes, and an object without owner is writable by staff only. |
| PropertyViews.FilteredSpec | backend/properties/views.py:13-20 | The filter keeps exactly the rows that match, and with no parameter every row. |
| PropertyViews.Filtered | backend/properties/views.py:13-20 | `PropertyFilter` on the table, in table order; stated by `FilteredSpec` and `BoundsInclusive`. |
| PropertyViews.BoundsInclusive | backend/properties/views.py:14-17 | The minimum and maximum bounds on price and area include their ends. |
| PropertyViews.CreatorMayWrite | backend/properties/views.py:39-40 | The realtor stamped on creation may write the listing. |
| PropertyViews.FirstProblemSpec | backend/properties/views.py:61-65 | No problem exactly when every file passes; otherwise the problem is that of the first failing file. |
| PropertyViews.FirstProblem | backend/properties/views.py:61-65 | The refusal of the first refused file; stated by `FirstProblemSpec`. |
| PropertyViews.TenMiBAccepted | backend/properties/views.py:62-65 | A file of exactly 10 MiB of an allowed type passes; one byte more is refused as too large. |
| PropertyViews.CheckFiles | backend/properties/views.py:61-65 | The loop returns the first problem, or none. |
| PropertyViews.FindProperty | backend/properties/views.py:52 | `get_object`: the index of the listing with that key, or none exactly when there is no such listing. |
| PropertyViews.Gate | backend/properties/views.py:49-54 | 401, 404, the permission's 403 and the realtor's 403, in that order; stated by `NonOwnerRefusedFirst`. |
| PropertyViews.UploadReply | backend/properties/views.py:49-69 | The reply of `upload_images`; stated by `UploadOnlyByRealtor`, `RealtorUploadOutcome` and `ImagesFieldWins`. |
| PropertyViews.UploadOnlyByRealtor | backend/properties/views.py:49-54 | A 201 happens only on a listing whose realtor is the user. |
| PropertyViews.NonOwnerRefusedFirst | backend/properties/views.py:52-54 | A signed-in user who is not the realtor gets 403 whatever files were sent. |
| PropertyViews.RealtorUploadOutcome | backend/properties/views.py:56-69 | For the realtor: 400 without files, 400 with the first file's problem, 201 otherwise. |
| PropertyViews.ImagesFieldWins | backend/properties/views.py:56 | When `images` holds files, `image` is ignored. |
| PropertyViews.FindImage | backend/properties/views.py:78 | The index of the image with that id on that listing, or none exactly when there is none. |
| PropertyViews.DeleteReply | backend/properties/views.py:71-80 | The reply of `delete_image`; stated by `DeleteOnlyOwnImage`. |
| PropertyViews.DeleteOnlyOwnImage | backend/properties/views.py:71-80 | An image of another listing is never deleted through this one: the reply is 401, 403 or 404. |
| PropertyViews.AppendFreshProperty | backend/properties/views.py:39-40 | Adding a listing under the next key keeps the keys distinct and below the counter. |
| PropertyViews.AppendFreshImage | backend/properties/views.py:67 | Adding an image under the next key keeps the keys distinct and below the counter. |
| PropertyViews.RemovedKeepsKeys | backend/properties/views.py:79 | Deleting an image keeps the keys distinct, and no remaining image has its id. |
| PropertyViews.PropertyStore.constructor | backend/properties/views.py:22-28 | Empty tables satisfying the key invariant. |
| PropertyViews.PropertyStore.Create | backend/properties/views.py:39-40 | An anonymous user (who has no id) makes the save fail with 500; otherwise 201 and the listing is appended under a new key with the user as realtor. |
| PropertyViews.PropertyStore.UploadImages | backend/properties/views.py:49-69 | The reply is that of `UploadReply`; on 201 one image per file is appended, otherwise nothing is stored. |
| PropertyViews.PropertyStore.StoreImages | backend/properties/views.py:67 | One image per file, in order, under fresh keys. |
| PropertyViews.PropertyStore.DeleteImage | backend/properties/views.py:71-80 | The reply is that of `DeleteReply`; on 204 exactly the found image is removed, otherwise nothing changes. |
| UserPermissions.StaffAlwaysAllowed | backend/users/permissions.py:9-10 | Staff pass the object check. |
| UserPermissions.HasObjectPermission | backend/users/permissions.py:9-11 | `has_object_permission`; stated by `StaffAlwaysAllowed`, `NonStaffIffSameId` and `MissingIdsMatch`. |
| UserPermissions.HasPermission | backend/users/permissions.py:8-15 | `has_permission`: a present, authenticated user; stated with the object check by `BothChecksNeedOwnerOrStaff`. |
| UserPermissions.NonStaffIffSameId | backend/users/permissions.py:9-11 | Anyone else passes exactly when the object's `user_id` equals the user's id, a missing one counting as None on both sides. |
| UserPermissions.MissingIdsMatch | backend/users/permissions.py:11 | An object without `user_id` passes for an anonymous or missing user, since None equals None. |
| UserPermissions.BothChecksNeedOwnerOrStaff | backend/users/permissions.py:8-15 | A user who passes both checks is staff or the object's owner. |
| UserSerializers.MissingRequired | backend/users/serializers.py:14-19 | Neither username nor email is required; only the password is. |
| UserSerializers.Lookup | backend/users/serializers.py:25-31 | The user found has the e-mail, ignoring case, and the lowest id among those that do; none exactly when no user has it. |
| UserSerializers.Validate | backend/users/serializers.py:21-35 | The base check sees the attributes unchanged or with the username of a stored user, and unchanged whenever a username was given. |
| UserSerializers.UsernameWins | backend/users/serializers.py:22-25 | A given username is never replaced. |
| UserSerializers.EmailResolves | backend/users/serializers.py:22-33 | With only an e-mail, the username is that of a stored user or unchanged, and unchanged when no user has the e-mail. |
| UserSerializers.OldestMatchChosen | backend/users/serializers.py:25-33 | With several matches, the username set is that of the lowest id. |
| UserSerializers.OnlyUsernameWritten | backend/users/serializers.py:32-33 | No attribute other than the username is changed. |
| DealViews.FilteredSpec | backend/deals/views.py:9-17 | The filter keeps exactly the matching deals. |
| DealViews.Filtered | backend/deals/views.py:9-17 | `DealFilter` on the table, in table order; stated by `FilteredSpec` and `CreatedToWholeDay`. |
| DealViews.CreatedToWholeDay | backend/deals/views.py:12-13 | `created_from` and `created_to` compare dates, so a deal matches its own whole day and not the day before. |
| DealViews.RealtorListingFails | backend/deals/views.py:33 | As written, a realtor's listing raises NameError, because `models` is never imported. |
| DealViews.VisibleAsWritten | backend/deals/views.py:26-33 | `get_queryset()` as written; stated by `RealtorListingFails` and `AsWrittenAgreesWhereItAnswers`. |
| DealViews.InvolvingSpec | backend/deals/views.py:33 | A deal is listed exactly when the user created it or is assigned it, with no repeats. |
| DealViews.Involving | backend/deals/views.py:33 | The deals the user created or is assigned, in table order; stated by `InvolvingSpec`. |
| DealViews.VisibleSpec | backend/deals/views.py:26-33 | Admins and managers see every deal; anyone else exactly the deals they created or are assigned, without repeats. |
| DealViews.Visible | backend/deals/views.py:26-33 | `get_queryset()` as intended; stated by `VisibleSpec` and `CreatorSeesDeal`. |
| DealViews.AsWrittenAgreesWhereItAnswers | backend/deals/views.py:26-33 | Where the code as written answers, it answers as the corrected listing does. |
| DealViews.Created | backend/deals/views.py:35-36 | The saved deal has the requesting user as creator and the request's data otherwise. |
| DealViews.CreatorSeesDeal | backend/deals/views.py:26-36 | A user always sees a deal they just created. |
| AuditSignals.GetRequest | backend/audit/signals.py:8-13 | A failing lookup gives no request; otherwise the request found, if any. |
| AuditSignals.Truncated | backend/audit/signals.py:25 | `message[:255]`: at most 255 characters that start the message, the whole message when it fits, exactly 255 otherwise. |
| AuditSignals.Record | backend/audit/signals.py:15-26 | The row `_write_log` creates; stated by `RecordSpec`, `NoRequestRow` and `AnonymousNotRecorded`. |
| AuditSignals.RecordSpec | backend/audit/signals.py:15-26 | The row names the action and "app.model", the decimal key (read back to the key), the user only when authenticated, the address, verb and path of the request when there is one, and the message cut to 255 characters. |
| AuditSignals.NoRequestRow | backend/audit/signals.py:21-24 | Without a request the row has no user and no address, and empty verb and path. |
| AuditSignals.AnonymousNotRecorded | backend/audit/signals.py:21 | An anonymous user is never recorded. |
| AuditSignals.Action | backend/audit/signals.py:28-42 | The action is "updated" exactly for a save of an existing row; a property otherwise logs "created" or "deleted", an image "image_uploaded" or "image_deleted". |
| AuditSignals.ActionsDistinct | backend/audit/signals.py:28-42 | The action names the receiver and signal, except "updated", which only saves of existing rows use. |
| AuditSignals.AuditLog.constructor | backend/audit/signals.py:17 | The log starts empty. |
| AuditSignals.AuditLog.WriteLog | backend/audit/signals.py:15-26 | One row is appended, the record of the action for the request found. |
| AuditSignals.AuditLog.Receive | backend/audit/signals.py:28-42 | Each of the four receivers appends one row with its action and an empty message. |
| ShowingModel.OverlapsOne | backend/showings/models.py:26-33 | Against one stored showing, overlap is that showing's conflict. |
| ShowingModel.Conflicts | backend/showings/models.py:26-33 | A stored showing the query of `overlaps()` finds: same agent, planned, start within `slot − 1` minutes, not the showing itself; stated by `SlotBoundary` and `ConflictSymmetric`. |
| ShowingModel.Overlaps | backend/showings/models.py:26-33 | `overlaps()`: some stored showing conflicts; stated by `OverlapsOne`, `NotItsOwnConflict` and `OnlyPlannedOfSameAgent`. |
| ShowingModel.NotItsOwnConflict | backend/showings/models.py:31-32 | A saved showing never overlaps itself. |
| ShowingModel.OnlyPlannedOfSameAgent | backend/showings/models.py:30 | An overlap is always with a planned showing of the same agent. |
| ShowingModel.ConflictSymmetric | backend/showings/models.py:28-30 | Between two saved planned showings of one agent, each overlaps the other exactly when their starts are at most `slot − 1` minutes apart. |
| ShowingModel.SlotBoundary | backend/showings/models.py:28-30 | Starts `slot` minutes apart do not conflict; `slot − 1` minutes apart, either way, do. |
| ShowingModel.DefaultSlotBoundary | backend/showings/models.py:7-30 | Example for `SlotBoundary`: with the default of 60 minutes, 60 minutes apart is free and 59 is taken. |
| ShowingSerializer.SetAllSnoc | backend/showings/serializers.py:17-18 | Applying one more attribute is applying it to the result. |
| ShowingSerializer.SetAll | backend/showings/serializers.py:17-18 | The attributes applied in order; stated by `SetAllSnoc` and `SetAllFields`. |
| ShowingSerializer.Merged | backend/showings/serializers.py:11-18 | The showing checked; stated by `ValidateMeaning`. |
| ShowingSerializer.SetAllFields | backend/showings/serializers.py:17-18 | The overlay keeps the key and the agent, and takes the status and start from the attributes when given. |
| ShowingSerializer.Overlay | backend/showings/serializers.py:17-18 | The `setattr` loop yields the overlay `SetAll` describes. |
| ShowingSerializer.Validate | backend/showings/serializers.py:10-21 | Only a planned result is checked; one without a start raises `TypeError`, then one without an agent raises `RelatedObjectDoesNotExist`; an overlap is refused on `starts_at` alone with the overlap message; otherwise the attributes are returned unchanged. |
| ShowingSerializer.ValidateMeaning | backend/showings/serializers.py:11-18 | The showing checked has the requesting user as agent, keeps its key, and takes its status and start from the request when given. |
| ShowingSerializer.NewShowingIsChecked | backend/showings/models.py:15-19 | A new showing without a status is planned, so it is checked. |
| ShowingSerializer.ClosingNeverConflicts | backend/showings/serializers.py:19 | Moving a showing to "done" or "canceled" is never refused for overlap. |
| ShowingViews.Window | backend/showings/views.py:16-23 | Without both dates the range is today to fourteen days on; with both it is the two parsed days, and an error exactly when one of them does not parse. |
| ShowingViews.SelectSpec | backend/showings/views.py:15-23 | The list holds exactly the user's showings whose day is in the range. |
| ShowingViews.Select | backend/showings/views.py:15-23 | The rows the filtered queryset yields, in table order; stated by `SelectSpec`. |
| ShowingViews.Listed | backend/showings/views.py:14-24 | The list of `get_queryset()`; stated by `ListedOnlyOwn` and `DefaultFortnight`. |
| ShowingViews.ListedOnlyOwn | backend/showings/views.py:15 | No agent ever sees another agent's showing. |
| ShowingViews.DefaultFortnight | backend/showings/views.py:20-23 | By default a showing on day 14 is listed and one on day 15 is not. |
| ShowingViews.PassedIsApart | backend/showings/serializers.py:19-20 | A showing that passed the check is apart from every other stored showing. |
| ShowingViews.Find | backend/showings/views.py:14-24 | The lookup finds a showing by key only among the user's listed ones. |
| ShowingViews.ShowingStore.constructor | backend/showings/views.py:12 | An empty table, without double bookings. |
| ShowingViews.ShowingStore.Create | backend/showings/views.py:26-27 | The showing is saved under a new key with the user as agent exactly when it is not planned or does not overlap; the table never holds a double booking. |
| ShowingViews.ShowingStore.Update | backend/showings/views.py:14-24 | A `from`/`to` date that does not parse is an error and nothing changes; otherwise 404 when the showing is not the user's listed one in that range; otherwise it is replaced by its overlay exactly when that passes the check; no double booking results. |

## Left out

- HTTP, `fetch`, JSON parsing and response bodies are not modelled. Each reply is a parameter.
- `verifyRegisterCode`, `resendRegisterCode`, `createProperty`, `uploadPropertyImage` and the property search are not part of this model. Their answers are parameters.
- Rendering, CSS, React effect scheduling, the `cancelled` flags and loads running at the same time are not modelled. Each handler is one atomic step.
- The one-second interval is not modelled as time. `TickCooldown` is one step of it.
- Focus is a box index: `focus()` on an element is not modelled.
- Floating point is left out. `Number`, `String(number)`, `toFixed`, `Intl` and `toISOString` are parameters, and decimal amounts on the server are reals.
- Keys inherited from `Object.prototype` (`data.constructor` and the like) are not modelled. A parsed body is a map of its own keys.
- Time zones are not modelled. `Accounts.Day` is the UTC day, where Django compares dates in the server's local time.
- `getErrorMessage` (JSON-stringifying a non-Error) is not modelled. The submit and resend take the resulting message as a parameter.
- `Wizard.WizardPage.HandleSubmit` uploads `data.photosFiles`, and no wizard step ever sets that field. The uploads are modelled as written, so a real submit makes none.
- Route guards (`Protected.tsx`), thin pages and presentation components are not part of this model.
- Django REST framework internals are not part of this model. This covers routers, serializers' declared field checks (required fields, the e-mail format), `exception_handler`, throttling, and the SimpleJWT password check (a parameter `base`).
- The search and ordering filters of the property and deal viewsets (`SearchFilter`, `OrderingFilter`, `ordering`) are not modelled. Lists are in table order.
- `list_images` is not modelled: it only reads.
- The remaining `ModelViewSet` actions of properties and deals (retrieve, update, destroy) are DRF's own and are not modelled.
- DRF runs the object permission in `get_object` for these actions as well; that permission is `PropertyPermissions.HasObjectPermission`, modelled on its own.
- The deal list is filtered by `DealFilter` only when the project settings install `DjangoFilterBackend`. Those settings are not part of this model, so the filter is modelled on its own (`DealViews.Filtered`).
- The image file storage and the model's `delete()` that removes the file are not modelled. An image row is what is stored.
- The 404 reply has no modelled body.
- ShowingViews.ShowingStore.Update: the showing serializer overlays the stored instance in place before the save. The model replaces the row by the overlaid copy, so aliasing of that instance is not modelled.
- ShowingViews.ShowingStore.Create: the check and the save are one atomic step. Two requests racing between the overlap query and the save are not modelled.
- The showing serializer also runs without a request in its context (agent left unset). `ShowingSerializer.Validate` covers that case through `user: Option<int>`, and the views always pass the user.
- UserSerializers.Lookup: `email__iexact` is modelled as ASCII case-insensitive equality. Unicode case folding is not modelled.
- UserSerializers.Validate: `initial_data` is a map of strings. Non-string JSON values in the login body are not modelled.
- PropertyViews.PropertyStore.Create: the serializer's own field validation is not modelled. A request is saved as given, with the realtor and key set.
- Register.GeneralMessage, Register.EmailMessage, Register.ParseServerError, Register.RegisterPage.OnSubmit and Register.RegisterPage.Send use the corrected `FirstMessage`, so a string error is shown whole where the code shows its first character; on every value that is not a string (DRF sends lists) they agree with the code, as `FirstMessage` states.
- Wizard.ToApi, Wizard.ToApiFields, Wizard.SubmitSequence, Wizard.WizardPage.HandleSubmit and Wizard.WizardPage.Primary build the title with the corrected `Title`, so a kind without a label is titled "Объект" where the code writes "undefined"; for a missing or labelled kind they agree with the code (`TitlesAgreeOnLabelledKinds`).
- PropertiesList.Turn: `Object.fromEntries` followed by `new URLSearchParams` puts integer-like names first; the model keeps the first-seen order of the names.
- Register.FirstMessageAsWritten and Json.First: in JavaScript `s[0]` on a string whose first character lies above U+FFFF is a lone high surrogate. A Dafny `char` is a Unicode scalar value and cannot hold one, so the model takes the whole character. DRF sends these field errors as lists of messages, so such a string error does not arise here.
- `audit/threadlocal.py` is an optional request input to `WriteLog` (`GetRequest`). Its per-thread storage is not modelled.

## Findings

| source | as written | input that shows it | evidently intended | confidence | as-written member | corrected member |
|---|---|---|---|---|---|---|
| backend/deals/views.py:33 | `models.Q(...)` is used but `models` is never imported, so a realtor's deal list raises `NameError` | a user with role "realtor" listing deals | realtors see the deals they created or are assigned, without repeats | not executed | DealViews.RealtorListingFails | DealViews.VisibleSpec |
| frontend/src/pages/PropertyCreate/Wizard.tsx:94-105 | `KIND_LABEL` has keys (elite, secondary, …) other than the kinds the picker offers, so `KIND_LABEL[d.kind]` is undefined | kind "apartment", no city: title "undefined" | a label for every kind, or "Объект" | not executed | Wizard.ApartmentTitleAsWritten | Wizard.KindLabelNeverUndefined |
| frontend/src/pages/PropertyCreate/steps/StepContacts.tsx:72-77 | the pasted text is formatted with its country code, which becomes the first three digits | pasting "+996 555 123 456" stores "+996 996 555 123" | drop the "+996" prefix as the change handler does | not executed | StepContacts.PasteKeepsCountryCode | StepContacts.PasteFormatted |
| frontend/src/pages/Register/Register.tsx:58-66 | `String(x[0] \|\| x)` on a string error takes its first character | `{"email": "This field is required."}` shows "T" | a string message is shown whole | not executed | Register.FirstMessageTruncatesString | Register.FirstMessage |
