# Notion subscriptions: a Dafny model

This project models the core of a Raycast extension that keeps a list of paid
subscriptions in a Notion database. The extension has three commands:

- **Add subscription** (`src/add-subscription.tsx` and `src/notion-utils/addSubscription.ts`).
  A form with a default start date 14 days after today and a validation table.
  Its submit handler raises a submitting flag, shapes the values, creates the
  page, shows a toast, and lowers the flag again.
- **Edit subscription** (`src/edit-subscription.tsx`).
  It decodes a stored page into the form's initial values and sends a
  six-property update bag. On success it hands the caller the page, patched
  in memory.
- **Show subscriptions** (`src/show-subscriptions.tsx`).
  It decodes each stored page into a list row (name, `US$` subtitle, date,
  billing-cycle and status accessories, Notion URL). It also keeps the
  screen's rows, loading flag and error text as the fetch effect sets them.

`createSubscriptionPage` (`src/notion-utils/createSubscriptionPage.ts`) maps
form values to Notion's property bag. It deletes the undefined entries in
place and wraps the bag in the request body for the fixed database.

Modules, one per concern:

| file | module | what it holds |
|---|---|---|
| `wrappers.dfy` | `Wrappers` | `Option` and `Result` |
| `event_logs.dfy` | `EventLogs` | appending a bracketed run of events to a handler's log |
| `dates.dfy` | `Dates` | calendar dates, "n days later", `toISOString().split("T")[0]`, `new Date(text)` |
| `js_values.dfy` | `JsValues` | untyped JavaScript values with truthiness, `\|\|`, `?.key`, `?.[0]` and spread |
| `ui.dfy` | `Ui` | toasts, colours and icons as tags |
| `notion_properties.dfy` | `NotionProperties` | the property shapes written to Notion and the optional-chain paths that read them back |
| `create_subscription_page.dfy` | `CreateSubscriptionPage` | `createSubscriptionPage` up to the request |
| `add_subscription_utils.dfy` | `AddSubscriptionUtils` | the validators and `handleAddSubscription` |
| `add_subscription_form.dfy` | `AddSubscriptionForm` | the add form's default date, initial values, validation table and submit gate |
| `edit_subscription.dfy` | `EditSubscription` | the edit form's decoding, update bag, in-memory patch and `onSubmit` |
| `show_subscriptions.dfy` | `ShowSubscriptions` | the status tag, row decoding and the list screen's state |

Things outside the program are parameters of the model:

- `Number(text)` is a parameter `toNumber`.
- The locale price formatting `toLocaleString` is a parameter `priceText`.
- The template literal's price text is a parameter `text`.
- The outcome of each network request is a `Result` parameter.
- The edit form's caller-supplied `onSave` is a parameter `OnSave`: not passed, returning, or throwing.
- The date the clock gives is a parameter `today`.

The stateful parts are classes whose fields the methods update:

- `handleAddSubscription` and the submitting flag: `AddSubscriptionUtils.AddCommandState`.
- The edit form's `onSubmit` and the loading flag: `EditSubscription.EditCommandState`.
- The list effect with `setSubscriptions`, `setLoading` and `setError`: `ShowSubscriptions.SubscriptionsScreen`.

The two submit handlers keep a log of what they did: flag changes, requests,
toasts and `onSave` calls. Each handler is proved to append exactly the
events of a specification function (`AddTrace`, `EditTrace`). Lemmas about
that function state the ordering the source promises. The list screen keeps
its rows, flags, error text and the toasts shown. Its fetch method is
specified directly by the new state it leaves, including which empty view
shows.

The deletion of undefined entries is an in-place loop in the source, so it
is a `while` loop over the key set (`PruneUndefined`). That loop is proved
equal to the filter `Pruned`.

`createSubscriptionPage` is declared for a `status` array and a `priority`
string. The add flow calls it with a single status string and no priority.
The model types its argument so that both calls can be written down. As the
code is written, the add flow posts only the first character of the status
name and a Priority select with an undefined name
(`AddSubscriptionUtils.AddFlowPostsFirstStatusCharacter`).

The edit form uses the same validation table as the add form
(`src/edit-subscription.tsx:70-77`). It is modelled once, as
`AddSubscriptionForm.FieldCheck`.

## Model

| member | source | states |
|---|---|---|
| Dates.CarryDays | src/add-subscription.tsx:18 | the day a Date stands for when its day of month d may run past the end of month m: a valid date, equal to (y, m, d) when d fits in the month (as `new Date(y, m, d)` for years outside 0-99) |
| Dates.CarryDaysStep | src/add-subscription.tsx:18 | carrying one more day of overflow moves the resulting date on by exactly one calendar day |
| Dates.CarryDaysIsAddDays | src/add-subscription.tsx:18 | `new Date(y, m, d + n)` is the date n calendar days after (y, m, d), counted one day at a time |
| Dates.PaddedReadsBack | src/notion-utils/createSubscriptionPage.ts:41 | a zero-padded numeral is all digits, at least as wide as asked, exactly as wide when the number fits, and reads back as the number |
| Dates.YearTextReadsBack | src/notion-utils/createSubscriptionPage.ts:41 | the year field of an ISO date parses back to the year; years 0 to 9999 take exactly four digits |
| Dates.IsoDateIsFullDate | src/notion-utils/createSubscriptionPage.ts:41 | for years 0 to 9999 the written date is `YYYY-MM-DD`: ten characters, hyphens at 4 and 7, digits elsewhere (the full-date of section 5.6 of RFC 3339) |
| Dates.DateTextReadsCarried | src/edit-subscription.tsx:68 | `new Date` of a `YYYY-MM-DD` text with month 01-12 and day 01-31 reads that day, a day past the end of the month carried into the next month |
| Dates.February30thRollsOver | src/edit-subscription.tsx:68 | `new Date("2024-02-30")` reads 1 March 2024 |
| Dates.IsoDateRoundTrip | src/edit-subscription.tsx:68 | parsing the written `YYYY-MM-DD` text gives back the date that was written, for every valid date |
| Dates.BeforeFirstT | src/notion-utils/createSubscriptionPage.ts:41 | `split("T")[0]` is a prefix of the text and holds no `T` |
| Dates.BeforeFirstTOfPrefix | src/notion-utils/createSubscriptionPage.ts:41 | on a text `a + "T" + b` where `a` has no `T`, `split("T")[0]` is `a` |
| Dates.IsoDatePart | src/notion-utils/createSubscriptionPage.ts:41 | `toISOString().split("T")[0]` is the date's `YYYY-MM-DD` text, and an Invalid Date throws the RangeError "Invalid time value" |
| Dates.IsoDateHasNoT | src/notion-utils/createSubscriptionPage.ts:41 | a written date text contains no `T`, so the split keeps all of it |
| Dates.NewDateFromText | src/edit-subscription.tsx:68 | `new Date(text)` is a valid date exactly when the text is `YYYY-MM-DD` (or the expanded-year form) with month 01-12 and day 01-31 |
| Dates.WrittenDateReadsBack | src/edit-subscription.tsx:68 | the date part written for a date is read back by `new Date` as that same date |
| NotionProperties.StartDateProperty | src/notion-utils/createSubscriptionPage.ts:40-42 | the "Start date" property throws exactly for an Invalid Date and is undefined exactly when no date is given; for a valid date its `date.start` is that date's `YYYY-MM-DD` text |
| NotionProperties.PropsOf | src/edit-subscription.tsx:56 | `item.properties \|\| {}` is always truthy: the page's properties when they are truthy, an empty object otherwise (also src/show-subscriptions.tsx:31) |
| NotionProperties.TitleWithTextReadsBack | src/notion-utils/createSubscriptionPage.ts:19-25 | the written title has one run, and its `text.content` reads back as the name |
| NotionProperties.TitleWithPlainTextReadsBack | src/edit-subscription.tsx:97 | the patched title's first run `plain_text` reads back as the name |
| NotionProperties.SelectOfReadsBack | src/notion-utils/createSubscriptionPage.ts:30-32 | a written select's `select.name` reads back as the name written |
| NotionProperties.NumberOfReadsBack | src/notion-utils/createSubscriptionPage.ts:37-39 | a written number property's `number` reads back as the number written |
| NotionProperties.StartDatePropertyReadsBack | src/notion-utils/createSubscriptionPage.ts:40-42 | a written start date is truthy under `date.start` and `new Date` of it is the date written |
| CreateSubscriptionPage.FirstStatus | src/notion-utils/createSubscriptionPage.ts:35 | `status[0]` is the first name of a list and the first character of a single name, and undefined exactly when either is empty |
| CreateSubscriptionPage.PriceValue | src/notion-utils/createSubscriptionPage.ts:38 | specified by PostedPriceAndDate: `Number(price)` for a text, the number itself otherwise |
| CreateSubscriptionPage.Properties | src/notion-utils/createSubscriptionPage.ts:18-43 | the bag has exactly the six keys Subscription, Priority, Billing cycle, Status, Price, Start date, and building it throws exactly for an Invalid Date |
| CreateSubscriptionPage.Pruned | src/notion-utils/createSubscriptionPage.ts:45-47 | the pruned bag has no undefined value, keeps every defined entry unchanged and adds nothing |
| CreateSubscriptionPage.PruneUndefined | src/notion-utils/createSubscriptionPage.ts:45-47 | the in-place deletion loop over the keys leaves exactly the pruned bag, whatever order the keys are visited in |
| CreateSubscriptionPage.Body | src/notion-utils/createSubscriptionPage.ts:49-52 | the body has exactly the keys `parent` and `properties`, its `parent.database_id` is the fixed database id, and its `properties` is the bag given |
| CreateSubscriptionPage.RequestBody | src/notion-utils/createSubscriptionPage.ts:49-52 | the body's `parent.database_id` is the fixed database id, and no body is built for an Invalid Date |
| CreateSubscriptionPage.BuildRequestBody | src/notion-utils/createSubscriptionPage.ts:45-52 | building the body with the in-place prune gives the specified request body |
| CreateSubscriptionPage.PrunedProperties | src/notion-utils/createSubscriptionPage.ts:18-47 | the posted keys are the six keys, less "Start date" exactly when no date is given; values are as built |
| CreateSubscriptionPage.PostedProperty | src/notion-utils/createSubscriptionPage.ts:45-52 | each posted property is the one built for its key |
| CreateSubscriptionPage.PostedTitle | src/notion-utils/createSubscriptionPage.ts:19-25 | the posted title has exactly one run whose text is the name |
| CreateSubscriptionPage.PostedSelects | src/notion-utils/createSubscriptionPage.ts:27-36 | the posted selects carry the priority, the billing cycle and `status[0]` |
| CreateSubscriptionPage.PostedPriceAndDate | src/notion-utils/createSubscriptionPage.ts:37-42 | the posted price is `Number(price)` for a text and the number itself otherwise; a given date reads back as itself |
| CreateSubscriptionPage.PostedPropertiesReadBack | src/notion-utils/createSubscriptionPage.ts:18-52 | the whole posted bag read back by the decoders' paths: keys, one-run title, selects, price and date |
| CreateSubscriptionPage.DeclaredStatusKeepsFirstOnly | src/notion-utils/createSubscriptionPage.ts:34-36 | with a status array, the Status select carries its first element and later elements are dropped |
| AddSubscriptionUtils.ValidatePrice | src/notion-utils/addSubscription.ts:14-19 | "Price is required" exactly for a missing or empty value; no error exactly when the value converts to a positive number; otherwise "Price must be a positive number" |
| AddSubscriptionUtils.ValidateStartDate | src/notion-utils/addSubscription.ts:21-24 | "Start date is required" exactly when the date is null or undefined; every Date passes |
| AddSubscriptionUtils.ValidateStatus | src/notion-utils/addSubscription.ts:26-29 | "Please select a status." exactly when the status is undefined or empty |
| AddSubscriptionUtils.Formatted | src/notion-utils/addSubscription.ts:33-37 | the shaped values have no priority, and a single status text rather than an array (so not createSubscriptionPage's declared type); the price is `Number(price)`; the name, billing cycle and start date pass through unchanged |
| AddSubscriptionUtils.AddFlowPostsFirstStatusCharacter | src/notion-utils/addSubscription.ts:33-40 | the add flow posts the name, billing cycle, `Number(price)` and the date unchanged, the first character of the status, and an undefined Priority name |
| AddSubscriptionUtils.AddTrace | src/notion-utils/addSubscription.ts:31-55 | specified by AddTraceShape: the events of one call, from raising the flag to lowering it |
| AddSubscriptionUtils.Attempt | src/notion-utils/addSubscription.ts:38-51 | specified by AddTraceShape: the request and toast between the two flag changes, or the failure toast alone when the body throws |
| AddSubscriptionUtils.AddTraceShape | src/notion-utils/addSubscription.ts:31-55 | the flag is raised first and lowered last on every path and nowhere else; one toast, after the one request if any; success exactly when a request was sent and succeeded |
| AddSubscriptionUtils.AddCommandState.constructor | src/add-subscription.tsx:24 | the submitting flag starts false |
| AddSubscriptionUtils.AddCommandState.HandleAddSubscription | src/notion-utils/addSubscription.ts:31-55 | the handler appends exactly the specified events and leaves the flag lowered |
| AddSubscriptionForm.DefaultStartDate | src/add-subscription.tsx:17-18 | the default start date is 14 calendar days after today, with the overflow carried into the next month or year (for a today outside the years 0-99) |
| AddSubscriptionForm.InitialValues | src/add-subscription.tsx:26-33 | empty name and price, "Work", "Monthly", "Trial", and today plus 14 days |
| AddSubscriptionForm.Required | src/add-subscription.tsx:35 | specified by SubmittableIff: the Required rule fails exactly on the empty text |
| AddSubscriptionForm.FieldCheck | src/add-subscription.tsx:34-41 | specified by SubmittableIff: each field's rule in the validation table |
| AddSubscriptionForm.Submittable | src/add-subscription.tsx:34-41 | specified by SubmittableIff: every field passes its rule |
| AddSubscriptionForm.SubmittableIff | src/add-subscription.tsx:34-41 | the form submits exactly when name, billing cycle, use case and status are non-empty, the price converts to a positive number and a date is picked |
| AddSubscriptionForm.InitialValuesNeedNameAndPrice | src/add-subscription.tsx:26-41 | the initial values pass the date, status, billing-cycle and use-case rules, fail on the name and price, and cannot be submitted |
| AddSubscriptionForm.HandleSubmit | src/add-subscription.tsx:42 | the handler runs exactly when every field passes; otherwise nothing is logged and the flag is untouched |
| AddSubscriptionForm.SubmitTitle | src/add-subscription.tsx:51 | "Submitting..." exactly while submitting, "Add subscription" otherwise |
| EditSubscription.DecodeInitialValues | src/edit-subscription.tsx:60-69 | the name, use case and status are the stored values when truthy, else "", "Work" and "Active"; the billing cycle is Annually exactly when stored as such, else Monthly; the price is "" when missing or null and the formatted stored price otherwise; the date is null exactly when the stored start is falsy, else `new Date` of it |
| EditSubscription.EmptyPageDecodesToDefaults | src/edit-subscription.tsx:56-69 | a page without properties decodes to "", "Work", "Monthly", "Active", "" and no date |
| EditSubscription.EditedProperties | src/edit-subscription.tsx:82-89 | the edited properties have exactly the six keys Subscription, Use case, Billing cycle, Status, Price, Start date, with the start-date property given |
| EditSubscription.UpdateBag | src/edit-subscription.tsx:82-89 | the update bag always has the six keys, with "Start date" undefined when no date is picked |
| EditSubscription.UpdateBagReadsBack | src/edit-subscription.tsx:82-89 | read by the store's paths, the bag sent holds a one-run title with the name, the use case, billing cycle and single status text as select names, and `Number(price)` |
| EditSubscription.PatchedItem | src/edit-subscription.tsx:93-104 | the patched page keeps every other top-level field and every other property, and its property keys are the old ones plus the six |
| EditSubscription.UpdateBagMatchesPatch | src/edit-subscription.tsx:82-103 | the page handed to onSave carries the very use-case, billing-cycle, status, price and start-date properties that were sent, and the same name in its title |
| EditSubscription.PatchedProperty | src/edit-subscription.tsx:95-103 | each of the six patched properties is the one written for its key |
| EditSubscription.PatchedReads | src/edit-subscription.tsx:95-103 | the patched page's six properties, reached by the decoders' paths, are the title, selects, number and start date written |
| EditSubscription.DecodesWrittenName | src/edit-subscription.tsx:61 | a page whose title was written with plain text decodes to that name |
| EditSubscription.DecodesWrittenSelects | src/edit-subscription.tsx:62-64 | written selects decode to the use case and status when non-empty, and to the billing cycle when it is Monthly or Annually |
| EditSubscription.DecodesWrittenPrice | src/edit-subscription.tsx:65-67 | a price written as a number decodes to the formatted text of that number |
| EditSubscription.DecodesWrittenDate | src/edit-subscription.tsx:68 | a start date written for a date decodes to that date, and an undefined one to null |
| EditSubscription.PatchRoundTrip | src/edit-subscription.tsx:93-104 | decoding the patched page gives back the submitted name and start date, the use case and status when non-empty, the billing cycle when Monthly or Annually, and the formatted text of `Number(price)` |
| EditSubscription.EditTrace | src/edit-subscription.tsx:78-112 | specified by EditTraceShape: the events of one submit, from setting loading to clearing it |
| EditSubscription.Update | src/edit-subscription.tsx:80-108 | specified by UpdateShape: the failure toast alone when the date throws; otherwise the request, its toast and, after a success, the onSave call |
| EditSubscription.SaveCall | src/edit-subscription.tsx:91-108 | specified by UpdateShape: no event without onSave, the call when it returns, and the call then "Failed to update" when it throws |
| EditSubscription.UpdateShape | src/edit-subscription.tsx:80-108 | inside the `try`: no loading change; the one onSave call comes third, after the request and the success toast; "Subscription updated" shows exactly when the update succeeded, and the failure toast follows it exactly when onSave throws |
| EditSubscription.EditTraceShape | src/edit-subscription.tsx:78-112 | loading is set first and cleared last; onSave is called at most once, only after a successful update, and exactly when it was passed, the update succeeded and the date is valid; "Subscription updated" shows exactly when the update succeeded, followed by "Failed to update" exactly when onSave throws |
| EditSubscription.EditCommandState.constructor | src/edit-subscription.tsx:57 | loading starts false |
| EditSubscription.EditCommandState.OnSubmit | src/edit-subscription.tsx:78-112 | onSubmit appends exactly the specified events and leaves loading false |
| EditSubscription.EditCommandState.TryUpdate | src/edit-subscription.tsx:80-108 | the `try` block appends exactly the events of Update and leaves loading as it was |
| EditSubscription.EditCommandState.CallOnSave | src/edit-subscription.tsx:91-108 | the onSave call appends exactly the events of SaveCall and leaves loading as it was |
| EditSubscription.SaveTitle | src/edit-subscription.tsx:120 | "Saving..." exactly while loading, "Save changes" otherwise |
| ShowSubscriptions.GetStatusAccessory | src/show-subscriptions.tsx:5-27 | nothing for a falsy status; Trial is "On trial" in yellow with a clock, Inactive is "Not in use" in the secondary colour with a disabled icon, Active stays "Active" in green; any other status keeps its text with no colour or icon; the icon is tinted with the tag colour |
| ShowSubscriptions.Present | src/show-subscriptions.tsx:39-43 | filtering never lengthens the list |
| ShowSubscriptions.PresentKeepsExactly | src/show-subscriptions.tsx:39-43 | filtering keeps exactly the present entries |
| ShowSubscriptions.PresentAppend | src/show-subscriptions.tsx:39-43 | filtering a concatenation filters each part, in order |
| ShowSubscriptions.Candidates | src/show-subscriptions.tsx:39-42 | three candidate entries, each present entry having the rank of its place: date, billing cycle, status |
| ShowSubscriptions.PresentOfThree | src/show-subscriptions.tsx:39-43 | filtering three entries keeps the present ones in their places' order |
| ShowSubscriptions.ListedInRankOrder | src/show-subscriptions.tsx:39-43 | present entries of ranks 0, 1 and 2 list in strictly increasing rank, at most three |
| ShowSubscriptions.PresentCandidatesOrder | src/show-subscriptions.tsx:39-43 | at most three accessories, ordered date, billing cycle, status |
| ShowSubscriptions.PresentCandidatesMembers | src/show-subscriptions.tsx:39-43 | the date and billing-cycle accessories are present exactly when their values are truthy, the status tag exactly when the status is, and it is the tag getStatusAccessory builds; nothing else is listed |
| ShowSubscriptions.StripHyphens | src/show-subscriptions.tsx:53 | the result has no hyphen and is no longer than the id |
| ShowSubscriptions.StripHyphensKeepsOthers | src/show-subscriptions.tsx:53 | every character of the id except the hyphen is kept |
| ShowSubscriptions.StripHyphensAppend | src/show-subscriptions.tsx:53 | removing hyphens from a concatenation removes them from each part |
| ShowSubscriptions.StripHyphensKeepsPlain | src/show-subscriptions.tsx:53 | a text without hyphens is unchanged, so removing twice is removing once |
| ShowSubscriptions.StripAroundHyphen | src/show-subscriptions.tsx:53 | a hyphen between two parts is dropped and each part is stripped on its own |
| ShowSubscriptions.HyphenatedIdStrips | src/show-subscriptions.tsx:53 | a 32-character id in 8-4-4-4-12 hyphenated form strips back to the compact id |
| ShowSubscriptions.DecodeRow | src/show-subscriptions.tsx:30-58 | specified by DecodeRowSpec: the list row of a stored page |
| ShowSubscriptions.DecodeRowSpec | src/show-subscriptions.tsx:30-58 | the name is the first title run's plain text or "(No name)"; the subtitle is "US$" and the price exactly when the price is not undefined; the accessories are the date exactly when the start is truthy, the billing-cycle tag exactly when the cycle is, and getStatusAccessory's tag exactly when the status is, nothing else, at most three, in that order; the URL is the Notion address of the id without hyphens |
| ShowSubscriptions.ResultsList | src/show-subscriptions.tsx:73 | the list is `results` when it is an array, and empty otherwise |
| ShowSubscriptions.ReadOfNothing | src/show-subscriptions.tsx:73 | reading `results` off undefined or null throws a TypeError with a truthy message |
| ShowSubscriptions.Settled | src/show-subscriptions.tsx:69-73 | the `try` block throws exactly when the query fails or resolves to undefined or null; a query failure is rethrown as is, and the TypeError has a truthy message; otherwise the pages are `results` |
| ShowSubscriptions.FetchErrorText | src/show-subscriptions.tsx:75 | the error is the thrown message when truthy, else "Failed to fetch subscriptions"; always truthy |
| ShowSubscriptions.CatchFaults | src/show-subscriptions.tsx:75 | specified by FetchSubscriptions: a thrown undefined or null makes `err.message` throw inside the `catch` block |
| ShowSubscriptions.ShowsErrorView | src/show-subscriptions.tsx:86-88 | specified by EmptyViewsExclusive and FetchSubscriptions: the error view shows exactly when the error text is truthy |
| ShowSubscriptions.ShowsEmptyView | src/show-subscriptions.tsx:89-91 | specified by EmptyViewsExclusive and FetchSubscriptions: the "No subscriptions found" view shows with no error, no rows and loading over |
| ShowSubscriptions.EmptyViewsExclusive | src/show-subscriptions.tsx:86-91 | the error view and the "No subscriptions found" view never show together |
| ShowSubscriptions.SubscriptionsScreen.constructor | src/show-subscriptions.tsx:61-63 | no rows, loading, no error, and neither empty view |
| ShowSubscriptions.SubscriptionsScreen.FetchSubscriptions | src/show-subscriptions.tsx:66-80 | loading ends; pages from the `try` block replace the list and clear the error; a throw keeps the list and records the error text and one failure toast, unless the thrown value is undefined or null, which leaves no error and no toast; the error view shows exactly after a recorded error, and the empty view exactly when the list is left empty without one |

## Left out

- Network I/O. Every `fetch`, the HTTP status check and the error-text wrapping in `querySubscriptions.ts`, `editSubscriptionPage.ts` and `createSubscriptionPage.ts:54-63` are replaced by a `Result` outcome parameter.
- A failure of the dynamic `import(...)` of a helper module is folded into the request's outcome parameter. The trace therefore still logs `CreateRequested` or `UpdateRequested` when no request was made. With an Invalid Date start the model also reports the RangeError, where the source would report the import error.
- `src/notion-utils/constants.ts` is not part of this model, apart from the database id. It reads the credential from the host's preferences and returns request headers.
- `src/delete-subscription.tsx` is not part of this model. It is a UI action around the archive request.
- JSX rendering, React hook scheduling, async/await ordering and `memo`. Colours and icons are tags only.
- `Number()` parsing and floating-point values. `toNumber` is an abstract parameter, and a JavaScript number is NaN, an infinity, or an exact real.
- `toLocaleString` price formatting is the abstract parameter `priceText`. The model does not capture that a formatted price such as "1,234.00" may not convert back under `Number()`.
- A listed `item` that is itself undefined or null would make `item.properties` throw (src/edit-subscription.tsx:56, src/show-subscriptions.tsx:31), since no `?.` guards it. `PropsOf` reads such an item as having no properties, so the model decodes the defaults or a "(No name)" row instead.
- The UTC shift in `toISOString`. Dates are calendar dates taken as UTC, so a picked date is its own UTC date.
- The JavaScript Date range (about ±273,790 years) and its millisecond time value. Calendar dates are unbounded here, and every valid date is representable.
- `new Date(text)` accepts more than `YYYY-MM-DD` and the expanded-year form. Any other text, and any stored non-text non-Date start, is modelled as an Invalid Date.
- Dates.NewDateFromText: accepts an expanded year of any number of digits past six, where V8 accepts exactly six. Such years lie outside the Date range anyway.
- Dates.CarryDays: `new Date(y, m, d)` takes a year 0-99 as 1900 + y. CarryDays, and so AddSubscriptionForm.DefaultStartDate, keeps the year y. The clock never gives such a year.
- The key order of JavaScript objects. Property bags are maps, so the order in which keys are visited or serialised is not modelled.
- Spreading a value that is not an object (a string or an array) copies nothing in the model. JavaScript would copy its indexed characters or elements.
- `FormValidation.Required` belongs to the form library. It is modelled as failing exactly on the empty text.
- The form library's own submit gate for the edit form is not written out separately. It applies the same table, `AddSubscriptionForm.FieldCheck`, before `EditCommandState.OnSubmit`.
- A truthy `results` that is not an array would make the list's render throw. The model treats it as an empty list.
- The TypeError text for reading `results` off undefined or null is V8's wording. Other engines word it differently; the model relies only on the message being non-empty.
- Dafny strings are sequences of Unicode scalar values. JavaScript's `status[0]` and `.length` count UTF-16 code units. AddSubscriptionUtils.AddFlowPostsFirstStatusCharacter: posts the whole first character of the status, where JavaScript would post a lone surrogate when that character is outside the Basic Multilingual Plane. `FormValidation.Required`, `validateStatus` and the other length tests agree either way, because only emptiness is tested.
- A rejected `fetchSubscriptions` promise (after a thrown undefined or null) goes unhandled. The model only records the state it leaves.
- A stored page whose `id` is not a text would make the row's render throw at `replace`. The model gives such a row no URL.
- `String(error)` of a thrown value is abstract: the outcome parameter carries that text directly.
