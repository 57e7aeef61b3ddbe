# Plant-care front end — a Dafny model

This project models the logic of a React front end for a house-plant care
application. The application has:

- a landing page with an image carousel and login/registration forms (`DefaultPage`);
- a session provider that keeps a JWT in `localStorage` (`AuthContext`), plus a stand-alone `useAuth` hook;
- a home page with counters and per-plant actions (`HomePage`);
- the "Mis Plantas" page, with its create/edit form, detail view, delete, water and fertilize (`MyPlantsPage`);
- the "Nueva planta" modal (`NewPlantModal`);
- the watering page, with its due/upcoming filter and bulk watering (`WateringPage`).

Pure logic is written as datatypes, functions and lemmas:

- `Text`: `trim`, `toLowerCase`, and capitalising the first character.
- `Plants`: the plant record and the requests.
- `Schedule`: `isDue` and the "hoy"/"proximos"/"todos" views.
- `Sync`: refetch, replacement by `_id`, shallow merge and removal.
- `Detail`: the newest-first sort and the "Ver todas" slice.
- `PlantForm`: the two copies of the Zod plant schema, the two copies of `mapEnum`, the request bodies, and the edit form's reload.

The components that keep React state are classes whose fields are that state. Each event handler is a method that changes those fields. It returns the requests it sends and the alerts it shows:

- `MyPlantsPage.Page`
- `WateringPage.Page`
- `HomePage.Page`
- `DefaultPage.Page`
- `AuthContext.AuthProvider` over `AuthContext.Storage`
- `UseAuthHook.AuthHook`

Some things the pages depend on are parameters instead:

- the server's replies (`ListReply`, `ActionReply`, `LoginReply`, `RegisterReply`);
- the user's answers to `prompt` and `confirm`;
- the clock (`now`, `nowMs`);
- the JWT decoder (`decode`);
- Zod's URL and e-mail checks (`isUrl`, `isEmail`);
- the locale date rendering (`render`).

## Model

| member | source | states |
|---|---|---|
| Text.TrimStart | src/pages/MyPlantsPage.jsx:41-44 | Never longer than its input; what is left starts with a non-space and ends where the input ended |
| Text.TrimStartDropsSpaces | src/pages/MyPlantsPage.jsx:41-44 | The result is a suffix of the input and every dropped character is white space |
| Text.TrimEnd | src/pages/MyPlantsPage.jsx:46-49 | Never longer than its input; what is left ends with a non-space and starts where the input started |
| Text.TrimEndDropsSpaces | src/pages/MyPlantsPage.jsx:46-49 | The result is a prefix of the input and every dropped character is white space |
| Text.Trim | src/pages/MyPlantsPage.jsx:100-103 | `.trim()` leaves no white space at either end and never lengthens |
| Text.TrimDropsSurroundingSpaces | src/pages/MyPlantsPage.jsx:41-44 | `.trim()` keeps the slice `s[a..b]` and drops only white space before `a` and from `b` on; white space is ECMAScript's, line terminators included |
| Text.TrimOfTrimmed | src/pages/MyPlantsPage.jsx:107-110 | A string with no white space at either end is its own trim |
| Text.TrimIdempotent | src/pages/DefaultPage.jsx:24-28 | Trimming twice equals trimming once |
| Text.Lower | src/pages/MyPlantsPage.jsx:165 | `toLowerCase` keeps the length and lower-cases each character |
| Text.Capitalize | src/pages/MyPlantsPage.jsx:29-30 | Keeps the length, upper-cases the first character and keeps the rest |
| Schedule.IsDue | src/pages/WateringPage.jsx:7 | `d ? new Date(d) <= new Date() : false`: an absent date is never due, a present one once `now` reaches it (its properties are in `DueStaysDue`) |
| Schedule.DueStaysDue | src/pages/WateringPage.jsx:7 | An absent date is never due; a date is due from its own instant on, not one millisecond before, and stays due as time passes |
| Schedule.DueList | src/pages/WateringPage.jsx:305-308 | `todayList` holds exactly the plants of the list whose watering is due, never more than the list |
| Schedule.UpcomingList | src/pages/WateringPage.jsx:309-312 | `upcomingList` holds exactly the plants with a watering date still in the future |
| Schedule.ScheduledList | src/pages/WateringPage.jsx:305-312 | The plants with any watering date at all |
| Schedule.PartitionScheduled | src/pages/WateringPage.jsx:305-312 | Due and upcoming lists are disjoint and together hold each scheduled plant exactly as often as the collection does |
| Schedule.DueListAppend | src/pages/WateringPage.jsx:305-308 | The due filter keeps list order: filtering a concatenation concatenates the filtered parts |
| Schedule.UpcomingListAppend | src/pages/WateringPage.jsx:309-312 | The upcoming filter keeps list order in the same way |
| Schedule.View | src/pages/WateringPage.jsx:314 | "hoy" shows the due list, "proximos" the upcoming list, any other filter the whole collection |
| Schedule.ViewWithinPlants | src/pages/WateringPage.jsx:314 | Every view is a sub-multiset of the collection |
| Schedule.DueListFull | src/pages/HomePage.jsx:55-58 | The due count equals the collection size exactly when every plant is due |
| Schedule.DateText | src/pages/WateringPage.jsx:8 | An absent date shows "—"; a present one its rendering |
| Sync.Fetched | src/pages/HomePage.jsx:31-47 | A failed load keeps the previous list, a non-array body gives `[]`, an array body replaces the list |
| Sync.FetchError | src/pages/MyPlantsPage.jsx:707-723 | The error banner is empty exactly when the load succeeded |
| Sync.ReplaceById | src/pages/MyPlantsPage.jsx:757 | Same length; every element with the requested `_id` becomes the returned plant, every other stays in place |
| Sync.ReplaceAbsent | src/pages/MyPlantsPage.jsx:732 | Replacing an `_id` no element carries leaves the list unchanged |
| Sync.Merge | src/pages/HomePage.jsx:74 | `{ ...p, ...patch }`: for each of the 19 fields, the patch's value when it carries one, the stored value when it does not |
| Sync.MergeScheduleOnly | src/pages/HomePage.jsx:72-76 | A reply carrying only `_id` and `nextWatering` moves that date and keeps every other stored field |
| Sync.MergeLaws | src/pages/HomePage.jsx:74 | A complete patch replaces the record, the empty patch changes nothing, merging the same patch twice is merging once |
| Sync.MergeById | src/pages/HomePage.jsx:73-75 | Same length; the plants with the requested `_id` are merged with the patch, the others are untouched |
| Sync.MergeByIdComplete | src/pages/HomePage.jsx:73-75 | With a complete patch the home page's merge and the other pages' replacement agree |
| Sync.RemoveById | src/pages/MyPlantsPage.jsx:746 | Removal never lengthens the list |
| Sync.RemoveByIdMembers | src/pages/MyPlantsPage.jsx:746 | A plant survives removal exactly when it was in the list and does not carry the deleted `_id` |
| Sync.RemoveByIdCount | src/pages/MyPlantsPage.jsx:746 | Removal drops exactly as many plants as carry the `_id` |
| Sync.RemoveByIdAppend | src/pages/MyPlantsPage.jsx:746 | Removal keeps the relative order of the remaining plants |
| Sync.Classify | src/pages/MyPlantsPage.jsx:754-758 | A non-2xx reply or one with `error` is alerted, with `error` or the fallback; a 2xx reply with a plant merges it; without one it refetches; an unreadable reply throws |
| Detail.Insert | src/pages/WateringPage.jsx:43-45 | Inserting into a newest-first list keeps it newest first and adds one entry |
| Detail.InsertPermutes | src/pages/WateringPage.jsx:43-45 | Insertion adds exactly the new entry and loses nothing |
| Detail.SortNewestFirst | src/pages/MyPlantsPage.jsx:485-490 | The sorted copy is newest first and a permutation of the notes |
| Detail.Shown | src/pages/WateringPage.jsx:50-51 | "Ver todas" shows the whole sorted list; otherwise exactly its first `min(n, limit)` entries |
| Detail.ShownAreNewest | src/pages/MyPlantsPage.jsx:485-493 | Every shown entry is at least as recent as every hidden one; the toggle appears exactly when entries are hidden; without it every entry is shown |
| PlantForm.TableCoversEnums | src/pages/MyPlantsPage.jsx:11-28 | The `mapEnum` table's keys are exactly the tokens of the six labelled enumerations |
| PlantForm.MapEnumCapitalizing | src/pages/MyPlantsPage.jsx:11-31 | "" stays ""; a table token gets its label; any other token is capitalised |
| PlantForm.MapEnumIdentity | src/components/NewPlantModal.jsx:69-89 | A table token gets its label; any other value is passed through |
| PlantForm.MapEnumCopiesDiffer | src/components/NewPlantModal.jsx:69-89 | The two `mapEnum` copies disagree exactly on unknown tokens whose first character capitalisation changes |
| PlantForm.LowerInvertsLabels | src/pages/MyPlantsPage.jsx:165 | Lower-casing a label gives its token back for fourteen entries; "Fácil" gives "fácil", which is no cuidado token |
| PlantForm.TokenOf | src/pages/MyPlantsPage.jsx:165 | A value outside the reverse table is lower-cased |
| PlantForm.TokenOfInvertsLabels | src/pages/MyPlantsPage.jsx:11-31 | The reverse table undoes both `mapEnum` copies on every token |
| PlantForm.Coerce | src/pages/MyPlantsPage.jsx:56-61 | A numeric field passes exactly when it is non-empty, not NaN and at least 0, and then yields that number |
| PlantForm.AllOkIffEveryField | src/pages/MyPlantsPage.jsx:40-111 | The whole-form check agrees with the per-field rules |
| PlantForm.AllFieldsListed | src/pages/MyPlantsPage.jsx:40-111 | The schema's field list names every field |
| PlantForm.FieldOk | src/pages/MyPlantsPage.jsx:40-111 | Each Zod field rule: trimmed texts of at least 2 characters, enumeration tokens, coerced non-negative numbers, the URL check on the trimmed address, the nickname always |
| PlantForm.Message | src/components/NewPlantModal.jsx:14-66 | Each field's refusal message in each copy of the schema |
| PlantForm.ErrorsFor | src/pages/MyPlantsPage.jsx:40-111 | An error is in the list exactly when its field is listed and fails, with that field's message; every error names a listed field |
| PlantForm.AllFieldsDistinct | src/pages/MyPlantsPage.jsx:40-111 | The schema lists each of its fields once |
| PlantForm.ErrorsForDistinct | src/pages/MyPlantsPage.jsx:40-111 | When no field is listed twice, no field gets two errors: one error per failing field |
| PlantForm.Parse | src/pages/MyPlantsPage.jsx:40-111 | Zod's output: trimmed texts, unchanged tokens, coerced numbers (its properties are in `ParseWellFormed` and `ValidateUnparse`) |
| PlantForm.ErrorsOfAllFields | src/components/NewPlantModal.jsx:14-66 | The full error list names exactly the failing fields and is empty exactly when all pass |
| PlantForm.ParseWellFormed | src/pages/MyPlantsPage.jsx:40-111 | A passing form parses to trimmed, long-enough texts, enumeration tokens, non-negative numbers and an accepted URL |
| PlantForm.Validate | src/pages/MyPlantsPage.jsx:40-111 | Accepted exactly when every field passes, then with the parsed data; otherwise every failing field, and only those, has exactly one error, with its schema's message |
| PlantForm.ValidateUnparse | src/components/NewPlantModal.jsx:14-66 | Data the schema can produce, typed back into the form, validate to themselves |
| PlantForm.DefaultsRejected | src/pages/MyPlantsPage.jsx:140-155 | The default values are refused by either copy, with an error on every field except temperature, toxicity and nickname |
| PlantForm.NameAndUrlErrorsOnly | src/components/NewPlantModal.jsx:14-66 | Valid data with the name emptied and a bad image URL get exactly the name and URL errors |
| PlantForm.OrOmit | src/pages/MyPlantsPage.jsx:207-218 | `s \|\| undefined` omits exactly the empty text |
| PlantForm.PlantsPageBody | src/pages/MyPlantsPage.jsx:205-220 | The page's body: toxicity is `si`, empty optional texts are omitted, numbers sent as given, temperature falls back to "Calido" |
| PlantForm.NewPlantBody | src/components/NewPlantModal.jsx:140-156 | The modal's body: toxicity is `si`, the nickname is omitted when empty, required texts and numbers always sent |
| PlantForm.BodiesAgreeOnValidData | src/components/NewPlantModal.jsx:140-156 | On any data the schema accepts, both copies send the same body with table labels in every enumerated key |
| PlantForm.OrElse | src/pages/MyPlantsPage.jsx:164-176 | `x \|\| fallback` keeps a non-empty text and otherwise gives the fallback |
| PlantForm.NumberField | src/pages/MyPlantsPage.jsx:166-171 | A stored number, 0 included, reloads as that number; only a missing one is blank |
| PlantForm.Preload | src/pages/MyPlantsPage.jsx:162-181 | The reloaded toxicity radio is `si` exactly when the plant is toxic; a missing temperature reloads as "calido" |
| PlantForm.EditPreload | src/pages/MyPlantsPage.jsx:162-181 | As written: the edit form's reset values, a stored label only lower-cased (the round trip and its failure are in `EditPreloadRoundTrip` and `EditPreloadLosesFacil`) |
| PlantForm.EditPreloadIntended | src/pages/MyPlantsPage.jsx:162-181 | The reset values with a stored label mapped back by the reverse table (round trip in `EditPreloadIntendedRoundTrip`) |
| PlantForm.ReloadedTexts | src/pages/MyPlantsPage.jsx:162-181 | Reopening a saved plant gives back every text and number field exactly as saved |
| PlantForm.LowerReloads | src/pages/MyPlantsPage.jsx:165 | As written, every stored label other than "Fácil" reloads as its token |
| PlantForm.TokenReloads | src/pages/MyPlantsPage.jsx:165 | With the reverse table every stored label reloads as its token |
| PlantForm.EditPreloadRoundTrip | src/pages/MyPlantsPage.jsx:159-201 | Saving valid data whose cuidado is not "facil" and reopening it gives the same form, which validates to the same data |
| PlantForm.EditPreloadLosesFacil | src/pages/MyPlantsPage.jsx:165 | As written, a plant saved as "facil" reopens with "fácil" and the form refuses it with the cuidado message |
| PlantForm.EditPreloadIntendedRoundTrip | src/pages/MyPlantsPage.jsx:159-201 | With the reverse table every valid form survives saving and reopening, "facil" included |
| NewPlantModal.AfterReply | src/components/NewPlantModal.jsx:158-173 | An unreadable reply does nothing more; non-2xx alerts `error` or the fallback; 2xx calls `onSaved(resp.plant)`, `onClose` and resets |
| NewPlantModal.Submit | src/components/NewPlantModal.jsx:139-174 | A refused form shows its errors and sends nothing; a valid one POSTs the modal's body, then the reply's effects |
| NewPlantModal.AnsweredEffects | src/components/NewPlantModal.jsx:158-173 | After the POST, `onClose` and `onSaved(plant)` follow exactly a 2xx reply, with the reply's plant, and no later step is a request |
| NewPlantModal.CallbacksOnlyOnSuccess | src/components/NewPlantModal.jsx:158-173 | `onClose` and `onSaved` run only after a POST answered 2xx, `onSaved` with exactly the reply's plant; a request is only ever the first step, so at most one goes out |
| NewPlantModal.DefaultsSendNothing | src/components/NewPlantModal.jsx:116-131 | Submitting the defaults sends nothing and shows the name, family and URL errors |
| NewPlantModal.RefusalShown | src/components/NewPlantModal.jsx:139 | A form with a failing field gets only its errors, that field with the modal's message |
| NewPlantModal.AfterOpenChange | src/components/NewPlantModal.jsx:135-137 | Closing resets the values to the defaults; opening keeps them |
| NewPlantModal.ReopenedFormSendsNothing | src/components/NewPlantModal.jsx:135-137 | Whatever was typed before closing, a submit right after reopening only shows errors |
| MyPlantsPage.IsEdit | src/pages/MyPlantsPage.jsx:222 | `Boolean(initial?._id)`: a plant with a non-empty id (used by `SaveRequest`) |
| MyPlantsPage.SaveRequest | src/pages/MyPlantsPage.jsx:222-226 | PATCH of `/api/plants/<id>` when editing a plant with an id, POST of `/api/plants` otherwise |
| MyPlantsPage.FormOnOpen | src/pages/MyPlantsPage.jsx:159-201 | Opening on a plant reloads it (as written, by lower-casing labels); opening new gives the defaults; closed keeps the values |
| MyPlantsPage.FormSubmit | src/pages/MyPlantsPage.jsx:203-243 | A refused form shows errors only; a valid one sends the save request with the page's body, then alerts on non-2xx or calls `onSaved(resp.plant)` and `onClose` on 2xx |
| MyPlantsPage.EditResubmitsSameBody | src/pages/MyPlantsPage.jsx:159-243 | Reopening a plant saved from valid data (cuidado not "facil") and submitting it unchanged PATCHes exactly the saved body |
| MyPlantsPage.FormOnOpenIntended | src/pages/MyPlantsPage.jsx:159-201 | As `FormOnOpen`, with labels mapped back to tokens by the reverse table |
| MyPlantsPage.EditResubmitsSameBodyIntended | src/pages/MyPlantsPage.jsx:159-243 | With the reverse table, every plant saved from valid data resubmits exactly the saved body |
| MyPlantsPage.DetailEntries | src/pages/MyPlantsPage.jsx:485-493 | Without "Ver todas", exactly the first `min(n, 3)` entries of the newest-first copy; with it, all entries newest first; the toggle shows exactly when more than three exist |
| MyPlantsPage.DetailAddNote | src/pages/MyPlantsPage.jsx:468-481 | An empty or cancelled prompt does nothing; otherwise the note's POST, then an alert on non-2xx or a page reload |
| MyPlantsPage.Page.constructor | src/pages/MyPlantsPage.jsx:695-703 | Empty list, loading, no error, no form, no detail |
| MyPlantsPage.Page.FetchPlants | src/pages/MyPlantsPage.jsx:707-723 | The list becomes `Fetched(old list, reply)`, the banner `FetchError(reply)`, loading ends; nothing else changes |
| MyPlantsPage.Page.OpenNew | src/pages/MyPlantsPage.jsx:783-788 | The form opens with no plant being edited |
| MyPlantsPage.Page.OpenEdit | src/pages/MyPlantsPage.jsx:809-812 | The form opens on the chosen plant |
| MyPlantsPage.Page.OpenDetail | src/pages/MyPlantsPage.jsx:805-808 | The detail view opens on the chosen plant |
| MyPlantsPage.Page.CloseDetail | src/pages/MyPlantsPage.jsx:833 | The detail view hides and the selection is kept |
| MyPlantsPage.Page.CloseForm | src/pages/MyPlantsPage.jsx:823-826 | The form hides and editing ends |
| MyPlantsPage.Page.HandleSaved | src/pages/MyPlantsPage.jsx:730-737 | While editing, the saved plant replaces every plant with its `_id`; otherwise it is prepended; editing ends |
| MyPlantsPage.Page.OnDelete | src/pages/MyPlantsPage.jsx:739-747 | A declined confirm sends nothing; a refused DELETE alerts "No se pudo eliminar" and keeps the list; an accepted one removes exactly the plants with the `_id` |
| MyPlantsPage.Page.OnCareAction | src/pages/MyPlantsPage.jsx:749-772 | The action's POST, then an alert with the list kept, replacement of the plants with the `_id`, or one refetch |
| WateringPage.DetailEntries | src/pages/WateringPage.jsx:43-51 | Without "Ver todas", exactly the first `min(n, 5)` entries of the newest-first copy; with it, all entries newest first; the toggle shows exactly when more than five exist |
| WateringPage.Page.constructor | src/pages/WateringPage.jsx:272-281 | Empty list, loading, no error, the "hoy" filter, no detail |
| WateringPage.Page.OnScreen | src/pages/WateringPage.jsx:314 | "hoy" shows the due list, "proximos" the upcoming list, any other filter the whole collection; always a sub-multiset of it |
| WateringPage.Page.FetchPlants | src/pages/WateringPage.jsx:283-299 | The list becomes `Fetched(old list, reply)`, the banner `FetchError(reply)`, loading ends |
| WateringPage.Page.SetFilter | src/pages/WateringPage.jsx:391-407 | Only the filter changes |
| WateringPage.Page.OpenDetail | src/pages/WateringPage.jsx:432-435 | The detail view opens on the chosen plant |
| WateringPage.Page.CloseDetail | src/pages/WateringPage.jsx:446 | The detail view hides and the selection is kept |
| WateringPage.Page.OnCareAction | src/pages/WateringPage.jsx:316-338 | The action's POST, then an alert with the list kept, replacement of the plants with the `_id`, or one refetch; an unreadable reply changes nothing |
| WateringPage.Page.OnAddNote | src/pages/WateringPage.jsx:340-354 | An empty or cancelled prompt sends nothing; otherwise the POST, then an alert with the list kept or exactly one refetch |
| WateringPage.Page.DetailCareAction | src/pages/WateringPage.jsx:72-90 | The detail view's POST for the selected plant, then an alert or a refetch of the whole list; nothing is merged locally |
| WateringPage.Page.DetailAddNote | src/pages/WateringPage.jsx:53-70 | An empty prompt sends nothing; a refused POST alerts `error` or the fallback; an accepted one refetches |
| WateringPage.Page.BulkWaterToday | src/pages/WateringPage.jsx:356-374 | Nothing due: only the "nothing to water" alert; declined: nothing; otherwise one water POST per due plant in list order, then one refetch and the completion alert |
| HomePage.Page.constructor | src/pages/HomePage.jsx:20-25 | Empty list, loading, no error, modal closed |
| HomePage.Page.WateringCount | src/pages/HomePage.jsx:54-58 | The due count never exceeds `plantCount` and equals it exactly when every plant is due |
| HomePage.Page.FetchPlants | src/pages/HomePage.jsx:31-47 | The list becomes `Fetched(old list, reply)`, the banner `FetchError(reply)`, loading ends |
| HomePage.Page.OpenModal | src/pages/HomePage.jsx:26 | The modal opens; nothing else changes |
| HomePage.Page.CloseModal | src/pages/HomePage.jsx:253 | The modal closes; nothing else changes |
| HomePage.Page.OnSaved | src/pages/HomePage.jsx:254 | The new plant is prepended and the rest follow unchanged |
| HomePage.Page.CareAction | src/pages/HomePage.jsx:63-103 | The action's POST, then an alert (the reply's error, the fallback or the thrown message) with the list kept, a shallow merge into the plants with the `_id`, or one refetch |
| HomePage.Page.AddNote | src/pages/HomePage.jsx:105-124 | An empty or cancelled prompt sends nothing; otherwise the POST, then an alert with the list kept, or exactly one refetch |
| DefaultPage.NextImage | src/pages/DefaultPage.jsx:95-96 | The next image stays in range and wraps from the last to the first |
| DefaultPage.PreviousImage | src/pages/DefaultPage.jsx:97-98 | The previous image stays in range and wraps from the first to the last |
| DefaultPage.CarouselInverse | src/pages/DefaultPage.jsx:95-98 | "Anterior" undoes "Siguiente" and the other way round |
| DefaultPage.AdvanceWraps | src/pages/DefaultPage.jsx:95-96 | `k` presses of "Siguiente" move `k` places round the ring |
| DefaultPage.FullTurn | src/pages/DefaultPage.jsx:95-96 | After one press per image the carousel is back where it started |
| DefaultPage.EmailIssue | src/pages/DefaultPage.jsx:14 | "Correo inválido" exactly when the e-mail check fails |
| DefaultPage.LoginPasswordIssue | src/pages/DefaultPage.jsx:15 | "Mínimo 6 caracteres" exactly when the password is shorter than six |
| DefaultPage.RegisterPasswordIssue | src/pages/DefaultPage.jsx:20-23 | Accepted exactly for 6 to 64 characters, with the short or long message otherwise |
| DefaultPage.NameIssue | src/pages/DefaultPage.jsx:24-28 | Accepted exactly when the trimmed name has 2 to 80 characters, with the short or long message otherwise |
| DefaultPage.AgeIssue | src/pages/DefaultPage.jsx:29-33 | Accepted exactly for whole numbers 13 to 120; NaN, fractions, too low and too high each get their own message |
| DefaultPage.ChoiceIssue | src/pages/DefaultPage.jsx:34-44 | An enumeration accepts exactly its tokens, with its single message otherwise |
| DefaultPage.LoginIssues | src/pages/DefaultPage.jsx:13-16 | Empty exactly for valid login values; holds the e-mail error iff the e-mail fails and the password error iff it is too short, and nothing else |
| DefaultPage.Collect | src/pages/DefaultPage.jsx:18-45 | An issue is reported exactly when some field has that message |
| DefaultPage.ValidAge | src/pages/DefaultPage.jsx:29-33 | A whole number from 13 to 120 (`AgeIssue` is empty exactly then) |
| DefaultPage.RegisterFieldIssues | src/pages/DefaultPage.jsx:18-45 | Each registration field with its first failing message, in the schema's order (`RegisterIssues` and `RegisterIssuesEmptyIff` state its properties) |
| DefaultPage.RegisterIssues | src/pages/DefaultPage.jsx:18-45 | Every failing registration field reports its own message, whatever the others hold |
| DefaultPage.RegisterIssuesEmptyIff | src/pages/DefaultPage.jsx:18-45 | The registration errors are empty exactly when every rule holds |
| DefaultPage.AgeReported | src/pages/DefaultPage.jsx:29-33 | The age is reported exactly when it fails, with its own message |
| DefaultPage.BlankRegistrationIssues | src/pages/DefaultPage.jsx:81-91 | A blank form with a valid age gets the e-mail, short-password, short-name, pet and experience errors, the climate, zone and space errors for each of those left empty, and no age error |
| DefaultPage.RegisterDefaultsBlank | src/pages/DefaultPage.jsx:81-91 | The registration defaults are blank, with every choice empty and the valid age 18 |
| DefaultPage.LoginScreenIntended | src/pages/DefaultPage.jsx:112-136 | Closed after a login that went through; otherwise the modal stays and shows the server's message, the thrown text or a fallback |
| DefaultPage.RefusedLoginErased | src/pages/DefaultPage.jsx:126-137 | For a refused login the intended screen keeps the modal and an error, unlike the closed screen the code leaves |
| DefaultPage.RegisterScreen | src/pages/DefaultPage.jsx:140-156 | Closed on success; otherwise the same modal with the server's message or a fallback |
| DefaultPage.Page.constructor | src/pages/DefaultPage.jsx:55-57 | First image, no modal, no error, both forms at their defaults |
| DefaultPage.Page.NextPressed | src/pages/DefaultPage.jsx:95-96 | The index becomes the next image; nothing else changes |
| DefaultPage.Page.PreviousPressed | src/pages/DefaultPage.jsx:97-98 | The index becomes the previous image; nothing else changes |
| DefaultPage.Page.OpenModal | src/pages/DefaultPage.jsx:100-103 | The chosen modal opens with no error shown |
| DefaultPage.Page.CloseModal | src/pages/DefaultPage.jsx:104-109 | No modal, no error, both forms at their defaults |
| DefaultPage.Page.OnLogin | src/pages/DefaultPage.jsx:112-138 | As written: refusals alert `error` ("undefined" when absent); an accepted token is stored and decoded, and navigation follows iff it decodes; the modal always closes and both forms reset |
| DefaultPage.Page.OnLoginIntended | src/pages/DefaultPage.jsx:112-136 | The same requests and session update, with the screen `LoginScreenIntended` gives and forms reset only after navigation |
| DefaultPage.Page.OnRegister | src/pages/DefaultPage.jsx:140-156 | The screen becomes `RegisterScreen`; forms reset only on success |
| AuthContext.Expired | src/context/AuthContext.jsx:27-28 | `decoded.exp < Date.now() / 1000`, with a missing `exp` never expired (its properties are in `ExpiryBoundary`) |
| AuthContext.ExpiryBoundary | src/context/AuthContext.jsx:27-34 | A token without `exp` never expires; with one, it expires strictly after `exp` seconds and stays expired |
| AuthContext.CheckSession | src/context/AuthContext.jsx:20-41 | No token, a token the decoder refuses, an expired token or an active session, each exactly in its own case |
| AuthContext.AuthProvider.constructor | src/context/AuthContext.jsx:15-17 | No user, no token, loading |
| AuthContext.AuthProvider.Init | src/context/AuthContext.jsx:20-41 | Token copied first; active sets the user; expired removes the token and clears the user; undecodable removes the token and keeps the user; loading ends |
| AuthContext.AuthProvider.Login | src/context/AuthContext.jsx:43-53 | The token is stored (absent as "undefined") before decoding; the user becomes the claims, or the call throws and the user stays |
| AuthContext.AuthProvider.Logout | src/context/AuthContext.jsx:55-64 | The stored token is removed and the user cleared |
| AuthContext.UseAuth | src/context/AuthContext.jsx:75-81 | The provider in scope, or the error message outside one |
| UseAuthHook.HookKeepsToken | src/hooks/useAuth.js:7-27 | The hook keeps the stored token in a different set of cases from the provider, and the two differ exactly on a token the decoder refuses |
| UseAuthHook.AuthHook.constructor | src/hooks/useAuth.js:4-5 | No user |
| UseAuthHook.AuthHook.Init | src/hooks/useAuth.js:7-27 | Active sets the user; expired removes the token and clears the user; undecodable clears the user and keeps the token |

## Left out

- HTTP transport and JSON parsing are not modelled. Replies are given as data. A DELETE or a detail-view note whose `fetch` itself throws is not modelled.
- Dates and locale formatting are left out. Dates are millisecond integers, and `toLocaleDateString` is the `render` parameter.
- JWT decoding, Zod's `.url()` and Zod's `.email()` are parameters, because they live in libraries.
- Markup, styling, routing, `console` logging and the confirm dialog's wording are left out. Navigation is a boolean.
- An explicit `null` in a reply is treated like an absent field. JavaScript's spread would copy the `null`.
- Keys such as `"constructor"` that `mapEnum`'s object lookup would find on the prototype are not modelled.
- String lengths are counted in code points, not UTF-16 units. Case mapping covers ASCII and Latin-1 only. Text.IsSpace follows ECMAScript's white space and line terminators for code points, not UTF-16 units.
- `Number()` is abstracted: a number field is blank, a real, or NaN. Floating-point rounding is not modelled.
- Detail.SortNewestFirst: entries with equal dates may come out in a different order from the engine's stable sort. The contract fixes only newest-first order and the permutation.
- MyPlantsPage.Page.HandleSaved takes the saved plant itself. A 2xx save reply without `plant` (which passes `undefined`) is not modelled.
- The "Nueva planta" modal's `acquisitionDate: new Date()` stamp is not part of `NewPlantBody`.
- DefaultPage.Page.OnLogin: the login and registration request bodies are not modelled. Neither is the text of the `TypeError` that the second `resp.json()` at line 128 throws. It is overwritten by the closing call in any case.
- DefaultPage.LoginScreenIntended: the decoder's error text is the parameter `thrownText`.
- Overlapping asynchronous handlers are treated as happening one after the other. React's batching of state updates is not modelled.
- MyPlantsPage.DetailAddNote: `window.location.reload()` is reported as a flag.
- The base URL and the `Authorization` header are left implicit in `Request`.
- HomePage.Page.PlantCount is the list's length. It has no contract of its own; `WateringCount` relates to it.

## Findings

| source | as written | input that shows it | evidently intended | confidence | as-written member | corrected member |
|---|---|---|---|---|---|---|
| src/pages/MyPlantsPage.jsx:165 | The edit form reloads a stored care level by lower-casing it. "Fácil" becomes "fácil", which is not one of the `cuidado` tokens. | A plant saved with cuidado "facil", stored as "Fácil", then opened in the edit form and submitted unchanged | The stored label maps back to its token, so the same data can be saved again | not executed | PlantForm.EditPreloadLosesFacil | PlantForm.EditPreloadIntendedRoundTrip |
| src/pages/DefaultPage.jsx:137 | `onLogin` calls `cerrarModal()` after its `try`/`catch` whatever happened. This erases the server error the `catch` just set and closes the modal. | A refused login (`resp.ok` false) while the login modal is open | The modal stays open and shows the error, as `onRegister` does | not executed | DefaultPage.Page.OnLogin | DefaultPage.Page.OnLoginIntended |
