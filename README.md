# RuletaMonsterTottus in Dafny

This project models the decision logic of the RuletaMonsterTottus front end. The front end is a React application for a supermarket prize campaign:

- Participants register at a store's page and spin a prize wheel.
- The winning prize is shown on an exit page.
- Administrators keep the list of stores and their prize stock.
- Administrators export the registrations to spreadsheets.

The React components are modelled as classes whose fields are the component's state. The handlers are methods that update those fields. The transformations the handlers apply (merging, filtering, mapping, summing, slug building, row building) are pure functions, and lemmas state their properties. Network replies are never fetched: each reply is a parameter, a datatype with one variant for a rejected request and one for a received body.

| module | file | what it covers |
|---|---|---|
| `Wrappers` | `wrappers.dfy` | `Option` (undefined/null), `Outcome` (a settled promise) |
| `Js` | `js.dfy` | JavaScript truthiness, `\|\|`, `??`, `trim`, `toLowerCase`, `includes`, `split(c)[0]`, numbers that may be NaN |
| `JsRecord` | `js_record.dfy` | a `Record<string, V>` object as an insertion-ordered list of entries, spread update, `Object.values`, the `forEach` fill |
| `Tiendas` | `tiendas.dfy` | the store administration page: loading, create, deactivate, edit, sorting, navigation |
| `NewStoreModal` | `new_store_modal.dfy` | the "Nueva Tienda" form |
| `EditStoreModal` | `edit_store_modal.dfy` | the "Editar Tienda" form |
| `LegacyStoreModal` | `store_modal.dfy` | the older, unused store form |
| `UseRegistration` | `use_registration.dfy` | the registration hook and its `handleSpin` pipeline |
| `RegisterPage` | `register_page.dfy` | the participant's registration form and spin gate |
| `Ruleta` | `ruleta.dfy` | the prize wheel: prize filtering and the target segment |
| `ExitPage` | `exit_page.dfy` | the prize image slug |
| `Registros` | `registros.dfy` | the registrations listing and its two spreadsheet exports |

Two inconsistencies between the files shape the model. Each file is modelled as written.

- `RegisterPage.tsx` reads `dni`, `setDni`, `email` and `setEmail` from the registration hook. The hook does not return them, so as written both fields are undefined and no registration can ever be accepted. This is the finding below. The page's class owns its own `dni` and `email` fields, which is the evidently intended behaviour.
- `handleSpin` requires a non-blank phone and a voucher. Neither the registration page nor the wheel ever sets them, so every spin from those pages fails validation. The `ensures` of `RegisterPage.RegisterForm.OnSpinClick` and `Ruleta.Wheel.OnSpinClick` state this: a blank hook phone means `/exit` is never chosen.

The prize counts in `fetchData` are used whenever the counts body has them, even when that reply's status is not ok. The code only logs a warning in that case. The model follows the code.

## Model

| member | source | states |
|---|---|---|
| `Js.ClampZero` | src/components/ui/NewStoreModal.tsx:156 | `Math.max(0, n)` is never negative and equals `n` unless `n` is negative |
| `Js.TrimStart` | src/pages/ExitPage.tsx:17 | the result is a suffix of the input, everything dropped is whitespace, and it does not start with whitespace |
| `Js.TrimEnd` | src/pages/ExitPage.tsx:17 | the result is a prefix of the input, everything dropped is whitespace, and it does not end with whitespace |
| `Js.Trim` | src/hooks/useRegistration.tsx:72 | the trimmed string neither starts nor ends with whitespace, and it is empty exactly when the input is all whitespace |
| `Js.TrimIgnoresPadding` | src/pages/ExitPage.tsx:17 | whitespace added on either side of a string does not change its trim |
| `Js.TrimStartDropsSpaces` | src/pages/ExitPage.tsx:17 | leading whitespace is removed whatever follows it |
| `Js.TrimStartStopsEarly` | src/pages/ExitPage.tsx:17 | `trimStart` stops at the first non-space character; everything after it is kept |
| `Js.TrimEndDropsSpaces` | src/pages/ExitPage.tsx:17 | trailing whitespace is removed whatever precedes it |
| `Js.LowerChar` | src/pages/ExitPage.tsx:17 | an upper-case ASCII letter becomes its lower-case letter, every other character is kept, and the result is never upper case |
| `Js.ToLower` | src/pages/Ruleta.tsx:52 | `toLowerCase` keeps the length and lowers each character in place |
| `Js.BeforeFirst` | src/pages/Ruleta.tsx:52 | `split(c)[0]` is a prefix without `c`, followed in the input by `c` unless it is the whole input |
| `Js.BeforeFirstAt` | src/pages/Ruleta.tsx:52 | when the first `c` is at index `k`, `split(c)[0]` is the first `k` characters |
| `Js.NoSpaceConcat` | src/pages/RegisterPage.tsx:43 | a concatenation has no whitespace exactly when neither part has |
| `JsRecord.Keys` | src/components/ui/NewStoreModal.tsx:153-157 | the keys of an object, one per entry, in entry order |
| `JsRecord.Values` | src/components/ui/NewStoreModal.tsx:46 | `Object.values` gives one value per entry, in entry order |
| `JsRecord.Get` | src/components/ui/NewStoreModal.tsx:57 | a lookup is undefined exactly for a missing key, and otherwise returns a stored entry's value |
| `JsRecord.Put` | src/components/ui/NewStoreModal.tsx:153-157 | a spread update adds at most one entry |
| `JsRecord.PutGet` | src/components/ui/NewStoreModal.tsx:153-157 | after `{ ...r, [k]: v }`, `k` maps to `v` |
| `JsRecord.PutOther` | src/components/ui/store-modal.tsx:29-32 | after a spread update every other key keeps its value or stays absent |
| `JsRecord.PutKeys` | src/components/ui/store-modal.tsx:29-32 | an existing key keeps its position and a new key is appended at the end |
| `JsRecord.PutEntries` | src/components/ui/store-modal.tsx:29-32 | every entry after a spread update is the new one or an old one |
| `JsRecord.PutKeepsDistinct` | src/components/ui/store-modal.tsx:29-32 | a spread update never duplicates a key |
| `JsRecord.FillAll` | src/components/ui/NewStoreModal.tsx:36-39 | the `forEach` fill maps every option, and only the options, to the given value, with each key once |
| `JsRecord.FillStep` | src/components/ui/store-modal.tsx:24 | one step of the fill keeps "exactly the keys seen so far, all mapped to the value" |
| `JsRecord.SumNonNegative` | src/components/ui/NewStoreModal.tsx:46 | a sum of non-negative stocks is non-negative |
| `JsRecord.SumAfterPut` | src/components/ui/NewStoreModal.tsx:46 | after storing `v` under `k`, the total moves by `v` minus the old value of `k`, or 0 if `k` was absent |
| `JsRecord.SumZeros` | src/components/ui/NewStoreModal.tsx:46 | a sequence of zeros sums to zero |
| `Tiendas.FirstRejection` | src/pages/Tiendas.tsx:129 | a batch is rejected exactly when some request is, and the reason is that of the first rejected request in request order |
| `Tiendas.FetchFailure` | src/pages/Tiendas.tsx:60-77 | `fetchData` succeeds exactly when the stores reply is ok with a `stores` array and the counts request did not throw; a bad stores reply reports its message or the default text |
| `Tiendas.MergeCounts` | src/pages/Tiendas.tsx:80-85 | the fetched stores, in order, each changed only in its count, which is the map's entry or 0 when the id or the map is missing |
| `Tiendas.CreatedId` | src/pages/Tiendas.tsx:106-110 | a store id exists exactly when the create reply is ok and carries a non-empty `storeId` |
| `Tiendas.PrizeRequests` | src/pages/Tiendas.tsx:112-116 | one prize request per input prize, in order, each for the new store, with its name, its stock and the description `Premio de <name> para <campaign>` |
| `Tiendas.SumStocksPositive` | src/pages/Tiendas.tsx:141 | the new store's count is positive, because the form only submits positive stocks |
| `Tiendas.NewStore` | src/pages/Tiendas.tsx:134-142 | the new row has the new id and name, is active, and counts the sum of the input stocks |
| `Tiendas.ActiveExcept` | src/pages/Tiendas.tsx:167-171 | the reference list: a store is kept exactly when it was active and its id differs from the target |
| `Tiendas.DeactivateKeepsOthers` | src/pages/Tiendas.tsx:167-171 | the map-then-filter of `handleDelete` equals that reference list, order included |
| `Tiendas.DeactivateFailure` | src/pages/Tiendas.tsx:159-163 | a 404 reports that the store was missing or already inactive; a deactivation fails exactly when the reply is not a 2xx status |
| `Tiendas.PrizeUpdates` | src/pages/Tiendas.tsx:209-227 | one prize update per edited prize, in order, with its id, name and available stock |
| `Tiendas.UpdatePlan` | src/pages/Tiendas.tsx:193-227 | `prizes.length` updates, plus one rename only when the name changed, and the rename comes first |
| `Tiendas.PlanUpdates` | src/pages/Tiendas.tsx:191-227 | the `push` loop builds exactly the planned request list |
| `Tiendas.PrizeUpdatesAppend` | src/pages/Tiendas.tsx:209-227 | the per-prize updates distribute over concatenation |
| `Tiendas.ReplaceRow` | src/pages/Tiendas.tsx:234-246 | the length is kept; only rows with the edited id change, taking the new name, time, prizes and the sum of available stock |
| `Tiendas.FindStore` | src/pages/Tiendas.tsx:258-259 | `find` by id: missing exactly when no row has the id, otherwise the first row with that id |
| `Tiendas.EditFailure` | src/pages/Tiendas.tsx:269-271 | loading prizes for editing succeeds exactly when the reply is ok and successful and holds a prize array |
| `Tiendas.Insert` | src/pages/Tiendas.tsx:320-327 | inserting keeps every element, with multiplicity, and adds the new one |
| `Tiendas.InsertSorted` | src/pages/Tiendas.tsx:320-327 | for a total preorder, inserting into a sorted list keeps it sorted |
| `Tiendas.SortCopy` | src/pages/Tiendas.tsx:320-327 | the sorted copy is a permutation of the list, and it is sorted whenever the comparison is a total preorder |
| `Tiendas.GoHomeRoute` | src/pages/Tiendas.tsx:297-305 | `/<id>` when the page has a store id, otherwise exactly `/` |
| `Tiendas.StoreAdmin.constructor` | src/pages/Tiendas.tsx:45-53 | the initial state: empty list, loading, no error, no message, no selection, modals closed |
| `Tiendas.StoreAdmin.FetchData` | src/pages/Tiendas.tsx:60-94 | on failure only `error` changes, to `Error al cargar datos: ` and the reason; on success the list becomes the merged stores; `loading` ends false |
| `Tiendas.StoreAdmin.HandleCreate` | src/pages/Tiendas.tsx:97-150 | no prize request without a store id; otherwise one per prize; the create succeeds exactly when there is a store id and no prize request is rejected, and then the new store is put in front of the unchanged old list, with the success message and the modal closed; on any failure the list, the message and the modal are unchanged |
| `Tiendas.StoreAdmin.HandleDelete` | src/pages/Tiendas.tsx:153-176 | on success the list is the map-then-filter result and the message is set; on failure only `error` changes |
| `Tiendas.StoreAdmin.HandleUpdate` | src/pages/Tiendas.tsx:179-254 | with no selection nothing is sent, an error is set and the modal closes; otherwise the plan is sent, and on success only the edited row changes, while on failure only `error` does; `loading` ends false |
| `Tiendas.StoreAdmin.HandleEdit` | src/pages/Tiendas.tsx:257-289 | an unknown id changes nothing; a good reply selects the store with its mapped prizes and opens the modal; a bad one clears the selection and sets `Error al editar: ` and the reason |
| `NewStoreModal.Selection` | src/components/ui/NewStoreModal.tsx:54-59 | every submitted prize is an option with positive stock, paired with that stock |
| `NewStoreModal.SelectionComplete` | src/components/ui/NewStoreModal.tsx:54-59 | every option with positive stock is submitted |
| `NewStoreModal.SelectionEmpty` | src/components/ui/NewStoreModal.tsx:61-65 | the selection is empty exactly when no option has positive stock |
| `NewStoreModal.SelectionAppend` | src/components/ui/NewStoreModal.tsx:54-59 | the selection keeps option order: it distributes over concatenated options |
| `NewStoreModal.ZeroedTotal` | src/components/ui/NewStoreModal.tsx:46 | a record of zero stocks has total 0 |
| `NewStoreModal.NewStoreForm.constructor` | src/components/ui/NewStoreModal.tsx:28-31 | empty name, no stocks, not submitting |
| `NewStoreModal.NewStoreForm.Total` | src/components/ui/NewStoreModal.tsx:46 | the displayed total is never negative |
| `NewStoreModal.NewStoreForm.Open` | src/components/ui/NewStoreModal.tsx:34-43 | when shown, every option's stock, and only those, is 0, the name is empty and the total is 0; when hidden nothing changes |
| `NewStoreModal.NewStoreForm.SetStock` | src/components/ui/NewStoreModal.tsx:152-157 | the field stores `max(0, parsed or 0)` under its option, other options keep their stock, and the total moves by exactly the change |
| `NewStoreModal.NewStoreForm.Submit` | src/components/ui/NewStoreModal.tsx:48-65 | a submit while submitting is a no-op; an empty selection is rejected and clears the flag; otherwise `onCreate` gets the name and the selection and the flag stays set |
| `NewStoreModal.NewStoreForm.CreateSettled` | src/components/ui/NewStoreModal.tsx:67-77 | after `onCreate` settles the flag is clear; the modal closes exactly on success, and a failure alerts `Error: ` and the message |
| `EditStoreModal.MapPrizes` | src/components/ui/EditStoreModal.tsx:78-83 | backend prizes map one to one and in order, with `name`, `initial_stock` and `available_stock` renamed |
| `EditStoreModal.LoadedPrizes` | src/components/ui/EditStoreModal.tsx:75 | a non-array reply gives no prizes; an array gives one per entry |
| `EditStoreModal.UpdatePrize` | src/components/ui/EditStoreModal.tsx:106-110 | same length and order, ids and names kept; only the named field of prizes with the id changes |
| `EditStoreModal.SumAvailableNonNegative` | src/components/ui/EditStoreModal.tsx:44-47 | the total is non-negative while every available stock is |
| `EditStoreModal.TotalIgnoresInitialStock` | src/components/ui/EditStoreModal.tsx:44-47 | changing an initial stock leaves the total unchanged |
| `EditStoreModal.TotalAfterAvailableChange` | src/components/ui/EditStoreModal.tsx:44-47 | changing the available stock of a prize with a unique id moves the total by exactly the change |
| `EditStoreModal.UnchangedWithoutId` | src/components/ui/EditStoreModal.tsx:106-110 | a change for an id that no prize has leaves the list as it is |
| `EditStoreModal.EditStoreForm.constructor` | src/components/ui/EditStoreModal.tsx:38-41 | empty name and prizes, not loading, no error |
| `EditStoreModal.EditStoreForm.Sync` | src/components/ui/EditStoreModal.tsx:50-95 | hidden or without data: prizes and error cleared; otherwise the name comes from the store, loading ends, and the prizes or the error come from the reply |
| `EditStoreModal.EditStoreForm.HandlePrizeChange` | src/components/ui/EditStoreModal.tsx:98-111 | the prizes become the update-by-id with `max(0, Number(value) \|\| 0)` |
| `EditStoreModal.EditStoreForm.HandleSubmit` | src/components/ui/EditStoreModal.tsx:113-121 | nothing without data; otherwise `onSubmit` gets the current name and prizes unchanged |
| `LegacyStoreModal.AsStocks` | src/components/ui/store-modal.tsx:38-39 | each stored quantity read as a number for `> 0`, with NaN counting as 0, keys kept |
| `LegacyStoreModal.LegacyStoreForm.constructor` | src/components/ui/store-modal.tsx:18-19 | empty name and quantities |
| `LegacyStoreModal.LegacyStoreForm.Init` | src/components/ui/store-modal.tsx:22-26 | every option, and only those, maps to 0 |
| `LegacyStoreModal.LegacyStoreForm.HandleQtyChange` | src/components/ui/store-modal.tsx:28-33 | only the given prize's entry changes, to `Math.max(0, Number(value))`, which is NaN for non-numeric input |
| `LegacyStoreModal.LegacyStoreForm.SetName` | src/components/ui/store-modal.tsx:70 | the name becomes the typed value |
| `LegacyStoreModal.LegacyStoreForm.HandleSubmit` | src/components/ui/store-modal.tsx:35-43 | `onCreate` gets the current name and the options with a positive quantity, in option order, and `onClose` always follows, even for an empty selection |
| `UseRegistration.Validate` | src/hooks/useRegistration.tsx:68-75 | validation passes exactly with a store id, a non-blank name and phone and a voucher; the missing store is reported before missing data |
| `UseRegistration.VoucherUrl` | src/hooks/useRegistration.tsx:93-97 | there is no URL exactly when the upload threw or has neither url nor filename; otherwise it is the url or the uploads base followed by the file name |
| `UseRegistration.UploadFailure` | src/hooks/useRegistration.tsx:93-95 | an upload fails exactly when it yields no voucher URL, with a non-empty message |
| `UseRegistration.RegisterResult` | src/hooks/useRegistration.tsx:119-124 | success, with prize and register id, exactly when the register reply is ok |
| `UseRegistration.RegisterMessage` | src/hooks/useRegistration.tsx:125-133 | no message exactly on success; a refused reply gives the warning sign and the server message or the default |
| `UseRegistration.SpinAttempt` | src/hooks/useRegistration.tsx:56-137 | a failed validation sends nothing; the upload comes first; registration is sent only after a good upload, and its reply then decides the result and the message; a success leaves no message; every failure is the plain failed result with a message |
| `UseRegistration.WinsExactly` | src/hooks/useRegistration.tsx:119-128 | an attempt ends in success with a non-empty prize name exactly when it passes validation and upload and the register reply is ok with a prize; on success the prize name and registration id are the reply's |
| `UseRegistration.Registration.constructor` | src/hooks/useRegistration.tsx:30-37 | not loading, empty texts, no voucher, the route's store id |
| `UseRegistration.Registration.LoadStoreName` | src/hooks/useRegistration.tsx:40-54 | only an ok, successful reply with data, on a page with a store id, sets the store name |
| `UseRegistration.Registration.SetName` | src/hooks/useRegistration.tsx:141 | the name becomes the typed value |
| `UseRegistration.Registration.SetPhone` | src/hooks/useRegistration.tsx:142 | the phone becomes the typed value |
| `UseRegistration.Registration.SetVoucher` | src/hooks/useRegistration.tsx:143 | the voucher becomes the chosen file |
| `UseRegistration.Registration.HandleSpin` | src/hooks/useRegistration.tsx:56-137 | result, requests and message are those of `SpinAttempt`; `loading` is untouched by a failed validation and false after every later exit |
| `RegisterPage.ActiveStoreId` | src/pages/RegisterPage.tsx:11 | the route parameter when non-empty, otherwise the `store` query parameter |
| `RegisterPage.StoresRoute` | src/pages/RegisterPage.tsx:31-37 | `/tiendas?store=<id>` with an active store id, otherwise exactly `/tiendas` |
| `RegisterPage.EmailShapeSound` | src/pages/RegisterPage.tsx:43 | every email the executable check accepts matches `^[^\s@]+@[^\s@]+\.[^\s@]+$` |
| `RegisterPage.EmailShapeOfParts` | src/pages/RegisterPage.tsx:43 | `a@b.c` passes the check for any runs `a`, `b`, `c` without whitespace or `@` |
| `RegisterPage.EmailShapeComplete` | src/pages/RegisterPage.tsx:43 | every email matching the pattern passes the executable check |
| `RegisterPage.EmailShapeMatchesPattern` | src/pages/RegisterPage.tsx:43 | the executable check accepts exactly the emails the pattern matches |
| `RegisterPage.RegisterCheck` | src/pages/RegisterPage.tsx:39-62 | a submit is ignored exactly when a field is empty or the terms are unchecked; any alert is the email alert or the DNI alert |
| `RegisterPage.RegisterCheckAccepts` | src/pages/RegisterPage.tsx:46-61 | a submit is accepted exactly when all fields are filled, the terms are checked, the email matches the pattern and the DNI has at least 8 characters; a bad email is reported before a short DNI |
| `RegisterPage.HookFieldsNeverRegister` | src/pages/RegisterPage.tsx:21-29 | as written, with DNI and email undefined, every submit is ignored |
| `RegisterPage.RegisterForm.constructor` | src/pages/RegisterPage.tsx:11-19 | the register modal is open, nothing is registered, the hook is fresh and its phone and voucher are empty |
| `RegisterPage.RegisterForm.SetDni` | src/pages/RegisterPage.tsx:27 | the DNI becomes the typed value |
| `RegisterPage.RegisterForm.SetEmail` | src/pages/RegisterPage.tsx:28 | the email becomes the typed value |
| `RegisterPage.RegisterForm.SetTermsAccepted` | src/pages/RegisterPage.tsx:19 | the terms box becomes the clicked value |
| `RegisterPage.RegisterForm.HandleRegisterSubmit` | src/pages/RegisterPage.tsx:39-62 | only an accepted submit hides the modal and registers; any other submit changes nothing |
| `RegisterPage.RegisterForm.OnSpinClick` | src/pages/RegisterPage.tsx:64-85 | a spin happens exactly when no GIF shows, nothing loads, a store id exists and the user is registered; an idle unregistered click reopens the modal; after a spin the modal is kept, loading is over and the hook message is that of the attempt; `/exit` is chosen exactly when the attempt passes validation and upload and the register reply is ok with a non-empty prize, and it carries that prize name and registration id; never while the hook's phone is blank |
| `Ruleta.InStock` | src/pages/Ruleta.tsx:39 | a prize is kept exactly when it is in the list and its inventory, or 0, is positive |
| `Ruleta.InStockAppend` | src/pages/Ruleta.tsx:39 | the filter keeps order: it distributes over concatenation |
| `Ruleta.ActivePrizes` | src/pages/Ruleta.tsx:37-40 | all prizes without a store id, otherwise the prizes in stock |
| `Ruleta.InStockKeepsAll` | src/pages/Ruleta.tsx:39 | when every prize has stock the filter keeps the list unchanged |
| `Ruleta.MockInventoryKeepsAll` | src/pages/Ruleta.tsx:28-40 | with the built-in inventory the wheel always shows all four prizes |
| `Ruleta.LabelKey` | src/pages/Ruleta.tsx:52 | the label key has no upper-case letter and no `/` |
| `Ruleta.FindFrom` | src/pages/Ruleta.tsx:51-53 | the first index at or after a position whose prize matches, or -1 exactly when none does |
| `Ruleta.FindIndex` | src/pages/Ruleta.tsx:51-53 | `findIndex`: the first matching prize, or -1 exactly when no prize matches |
| `Ruleta.TargetIndex` | src/pages/Ruleta.tsx:55 | the first match when there is one, otherwise segment 0 |
| `Ruleta.Wheel.constructor` | src/pages/Ruleta.tsx:8-18 | not spinning, no winner, and the wheel shows the active prizes, which are all four |
| `Ruleta.Wheel.OnSpinClick` | src/pages/Ruleta.tsx:42-83 | a spin happens exactly when not spinning, not loading and with a store id; after a spin loading is over and the hook message is that of the attempt; `/exit` is opened, anonymously, exactly when the attempt passes validation and upload and the register reply is ok with a non-empty prize, carrying that prize name and registration id, and the target segment's prize is marked; any other result stops the spin with no winner; never `/exit` while the hook's phone is blank |
| `ExitPage.Runs` | src/pages/ExitPage.tsx:17 | the replacement never lengthens the string |
| `ExitPage.RunsNoSpace` | src/pages/ExitPage.tsx:17 | no whitespace survives `replace(/\s+/g, '_')` |
| `ExitPage.RunsChars` | src/pages/ExitPage.tsx:17 | every character of the result is `_` or comes from the input |
| `ExitPage.RunsSkipSpaces` | src/pages/ExitPage.tsx:17 | inside a whitespace run, more whitespace adds nothing |
| `ExitPage.ReplaceRunsRun` | src/pages/ExitPage.tsx:17 | a maximal whitespace run becomes exactly one `_` |
| `ExitPage.RunsSplit` | src/pages/ExitPage.tsx:17 | the replacement works run by run: it splits after any non-space character |
| `ExitPage.ReplaceRunsSplit` | src/pages/ExitPage.tsx:17 | the replacement of a concatenation cut after a non-space is the concatenation of the replacements |
| `ExitPage.RunsKeepsPlain` | src/pages/ExitPage.tsx:17 | a string without whitespace is left as it is |
| `ExitPage.GetPrizeImage` | src/pages/ExitPage.tsx:15-19 | no image exactly for a missing or empty name; otherwise `/` + slug + `.png` |
| `ExitPage.SlugIsClean` | src/pages/ExitPage.tsx:17 | the slug has no whitespace and no upper-case letter |
| `ExitPage.SlugIgnoresPadding` | src/pages/ExitPage.tsx:17 | leading and trailing whitespace never reaches the slug |
| `ExitPage.BlankNameImage` | src/pages/ExitPage.tsx:16-18 | an all-whitespace name is truthy and gives `/.png` |
| `ExitPage.ToLowerAppend` | src/pages/ExitPage.tsx:17 | lowering distributes over concatenation |
| `ExitPage.TrimUnpadded` | src/pages/ExitPage.tsx:17 | a string that neither starts nor ends with whitespace is its own trim |
| `ExitPage.LowerAroundSpaces` | src/pages/ExitPage.tsx:17 | lowering leaves whitespace between two parts in place |
| `ExitPage.SlugTwoWords` | src/pages/ExitPage.tsx:13-18 | two words separated by whitespace give the lowered words joined by one `_` |
| `ExitPage.UltraBocinaLowered` | src/pages/ExitPage.tsx:14 | the words of the example lower to `ultra` and `bocina` |
| `ExitPage.UltraBocinaSlug` | src/pages/ExitPage.tsx:13-14 | the documented example: "Ultra Bocina" has the slug `ultra_bocina` |
| `Registros.Headers` | src/pages/Registros.tsx:126-135 | the column headers of a row, in order |
| `Registros.OrDash` | src/pages/Registros.tsx:129-133 | `?? '—'`: a missing value becomes a dash, and an empty string is kept |
| `Registros.DateCell` | src/pages/Registros.tsx:108-117 | `-` for a missing or empty date, otherwise the formatted date |
| `Registros.BuildQuery` | src/pages/Registros.tsx:60-66 | the query always starts with `campaign`, and carries `storeId` exactly when a store is selected |
| `Registros.CampaignRow` | src/pages/Registros.tsx:126-135 | eight columns in order; `GANADOR` exactly when the prize name is non-empty, otherwise `NO GANÓ`; the store falls back to `Desconocida` and the other fields to a dash |
| `Registros.StoreRow` | src/pages/Registros.tsx:158-165 | six columns, with no id and no status column, and no fallback for the store name |
| `Registros.CampaignRows` | src/pages/Registros.tsx:126 | exactly one campaign row per record, in order |
| `Registros.StoreRows` | src/pages/Registros.tsx:158 | exactly one store row per record, in order |
| `Registros.WinnerRowsCount` | src/pages/Registros.tsx:132 | the export has as many `GANADOR` rows as there are records with a prize |
| `Registros.CampaignExport` | src/pages/Registros.tsx:120-145 | a failed request alerts; otherwise the `registros_<campaign>_completo.xlsx` file gets the campaign rows of the data, or none |
| `Registros.FindTienda` | src/pages/Registros.tsx:151 | `find` by id: missing exactly when no store has it, otherwise the first store with it |
| `Registros.StoreLabel` | src/pages/Registros.tsx:151 | the selected store's name when it is non-empty; `Tienda` when no store has the id or its name is empty |
| `Registros.StoreExport` | src/pages/Registros.tsx:148-175 | nothing without a selected store; a failed request alerts; otherwise `registros_tienda_<label>.xlsx` gets the store rows |
| `Registros.RegistrosView.constructor` | src/pages/Registros.tsx:41-50 | empty lists, not loading, no store selected |
| `Registros.RegistrosView.SelectStore` | src/pages/Registros.tsx:49 | the selection becomes the chosen id |
| `Registros.RegistrosView.FetchRegistros` | src/pages/Registros.tsx:57-83 | the query as built for the selection; only a received reply overwrites the list, with an empty list when it has no data; loading ends false |
| `Registros.RegistrosView.FetchTiendas` | src/pages/Registros.tsx:94-103 | only an ok reply with data replaces the store list; anything else keeps it |

## Left out

- Network I/O: every `fetch`, JSON parse and `FormData` upload. Each reply is a parameter, and a rejected request or parse is the reply's thrown variant.
- `Promise.all` runs its requests in parallel. The model sends them in order and reports the first rejection in request order. In JavaScript the first rejection to arrive in time wins.
- Cancellation by `AbortController` in the listing effect. An aborted request is the `ListAborted` reply. The timing of the abort against a newer selection is not modelled.
- Timers: the 4 s and 1.5 s/5 s navigation delays and the 2 s toast timer. Navigation is returned as the chosen route or exit state.
- The wheel's rotation angle, which is floating-point arithmetic.
- Date formatting in the `America/Lima` time zone. It is the `format` parameter of `Registros.DateCell`.
- The sort comparators: the `created_at` date comparison and `localeCompare`. Each is an abstract comparison; `Tiendas.SortCopy` is proved sorted when it is a total preorder. The page's `sortBy` toggle only picks the comparator.
- Writing the spreadsheet file: an export returns the file name, the sheet name and the rows.
- Parsing typed input with `parseInt` and `Number`. The parsed number, an integer or NaN, is the parameter.
- Stocks are integers. A backend stock that is null or fractional is not modelled, so `|| 0` in `EditStoreModal.SumAvailable` is the identity.
- A prize reply whose `data` field is missing, which throws a type error in the edit form. The model treats it like a non-array list.
- JavaScript's `\s` class and Unicode case mapping. Whitespace is ASCII whitespace and lowering covers `A`–`Z` only.
- URL encoding of the listing query. `BuildQuery` returns its parameters as pairs.
- `handleEditWrapper`'s catch: `handleEdit` catches every error itself, so the wrapper's message never appears.
- The campaign name and API base URL, which come from build-time settings. They are parameters.
- `App.tsx` routing, `Home.tsx`, `TableWithActions.tsx` (QR codes, `window.open`), `BackgroundCC.tsx`, the animations, all rendering and the console logs.
- `UseRegistration.Registration.LoadStoreName`: a successful reply whose `data` has no `name` sets the store name to `undefined` in the hook; the model keeps the old name then, because the store name is a string here.
- `ExitPage.UltraBocinaSlug` states the documented example at the slug level. The image `/ultra_bocina.png` follows from `ExitPage.GetPrizeImage`.

## Findings

| source | as written | input that shows it | evidently intended | confidence | as-written member | corrected member |
|---|---|---|---|---|---|---|
| src/pages/RegisterPage.tsx:21-29 | the page takes `dni`, `setDni`, `email`, `setEmail` from `useRegistration`, which returns none of them (src/hooks/useRegistration.tsx:139-145), so `dni` and `email` are undefined and the check at line 46 always returns early | any submit, e.g. name `Ana`, terms accepted, DNI `12345678`, email `a@b.co` typed: the result is ignored and `isRegistered` stays false | the page keeps its own DNI and email fields, so that a complete, well-formed submit registers | not executed | `RegisterPage.HookFieldsNeverRegister` | `RegisterPage.RegisterForm.HandleRegisterSubmit` |
