# Wekip app core, modelled in Dafny

Wekip is a React Native client for digital receipts. This project models the
four pieces of its code that carry sequential logic:

- **Select option** (`components/form/pure-select-item.tsx`). The `isSelectItem`
  test tells a `{value, label}` record from a plain string option. That choice
  fixes the value a press reports and the text the option shows.
- **Select box** (`components/form/select-input.tsx`). The search filter keeps
  the options whose lower-cased label or value contains the lower-cased keyword.
  The component also holds the selected value `innerValue`, synced from the
  `value` prop and set by a press. The closed box shows either the placeholder
  or the selection.
- **Session context** (`contexts/auth.context.tsx`). The credential `authData`
  and the `loading` flag change through `signIn`, `signOut` and
  `loadStorageData`. Each change is mirrored to the `@AuthData` key of the device
  store. The route guard picks `/login`, `/(tabs)/` or no redirect.
- **Time frame sheet** (`components/misc/timeframe.tsx`). `setTime` snaps an
  instant to 00:00:00 or 23:59:59 of its UTC day. The sheet keeps
  `{start, end}` and the picker being edited.

Files, one module each:

- `wrappers.dfy`: `Option`.
- `js.dfy`: JavaScript values, `typeof`, truthiness, and ASCII `toLowerCase`
  and `includes`.
- `select_items.dfy`: module `SelectItems`.
- `select_input.dfy`: module `Select`, with class `SelectInput`.
- `auth.dfy`: module `Auth`, with classes `DeviceStore` and `AuthProvider`.
- `timeframe.dfy`: module `TimeFrame`, with class `TimeFramePicker`.

Pure code is written as functions with lemmas. Component state is a class:
each method's `ensures` ties the new state to a function of the old one, and
lemmas state what that function promises. Dates are whole milliseconds since
the epoch, in UTC. The device store is a synchronous map. A storage call that
fails is a boolean parameter.

Behaviour of the code worth noting:

- `loadStorageData` leaves the credential unchanged when the read or the parse
  fails. At launch that means "no credential".
- `signIn` does not catch a failing write. Only its effect on state is modelled.
- `useAuth`'s `if (!context)` check never fires (see Findings).

## Model

| member | source | states |
|---|---|---|
| `Js.ToLower` | components/form/select-input.tsx:95-96 | lower-casing keeps the length and folds each character on its own |
| `Js.ToLowerConcat` | components/form/select-input.tsx:95-96 | lower-casing distributes over concatenation |
| `Js.ToLowerIdempotent` | components/form/select-input.tsx:95-96 | lower-casing twice equals lower-casing once |
| `Js.IncludesIff` | components/form/select-input.tsx:95-96 | `includes` holds exactly when the searched string occurs at some index |
| `Js.IncludesEmpty` | components/form/select-input.tsx:95-96 | every string includes the empty string |
| `Js.IncludesPrefixOfSearch` | components/form/select-input.tsx:95-96 | a string that includes `a + b` includes `a` |
| `SelectItems.IsSelectItem` | components/form/pure-select-item.tsx:6-8 | a value passes `isSelectItem` exactly when it is a non-null object with a `value` key; `IsSelectItemOnItems` states what it accepts among options |
| `SelectItems.IsSelectItemOnItems` | components/form/select-input.tsx:41-43 | among options, the test accepts exactly the records and rejects plain strings |
| `SelectItems.Value` | components/form/pure-select-item.tsx:28 | a press reports a plain string itself and a record's `value` field |
| `SelectItems.Label` | components/form/pure-select-item.tsx:36 | the option shows a plain string itself and a record's `label` field |
| `SelectItems.Render` | components/form/pure-select-item.tsx:33-36 | with no special component the option shows its label as text; otherwise the component gets the option |
| `SelectItems.PressReportsValueNotLabel` | components/form/pure-select-item.tsx:28 | a record whose value and label differ reports its value and not its label |
| `SelectItems.PlainReportsWhatItShows` | components/form/pure-select-item.tsx:28-36 | a plain option reports and shows the same string |
| `Select.Matches` | components/form/select-input.tsx:92-97 | an option matches exactly when the lower-cased keyword occurs at some index of its lower-cased label or of its lower-cased value; `MatchesPrefix` states that a longer keyword only narrows the match |
| `Select.Filter` | components/form/select-input.tsx:91-98 | the result keeps only options that match the keyword, keeps every option of `data` that matches, and is no longer than `data` |
| `Select.FilterIsSubsequence` | components/form/select-input.tsx:91-98 | the filtered list is a subsequence of `data`: original order, nothing added |
| `Select.FilterKeepsEveryOccurrence` | components/form/select-input.tsx:92-97 | each matching option appears as often as in `data`; a non-matching one never appears |
| `Select.FilterEmptyKeyword` | components/form/select-input.tsx:95-96 | the empty keyword keeps every option |
| `Select.MatchesPrefix` | components/form/select-input.tsx:93-96 | an option that matches `k + s` also matches `k` |
| `Select.FilterNarrows` | components/form/select-input.tsx:91-98 | filtering by `k + s` equals filtering the result for `k` again by `k + s` |
| `Select.FilterNarrowsToSubsequence` | components/form/select-input.tsx:91-98 | the result for `k + s` is a subsequence of the result for `k` |
| `Select.FilterIgnoresKeywordCase` | components/form/select-input.tsx:95-96 | the keyword's letter case does not change the result |
| `Select.FromProp` | components/form/select-input.tsx:69-71 | an absent or empty `value` becomes no selection; any other value is kept as it is |
| `Select.AllPlain` | components/form/select-input.tsx:138 | `data.every(typeof value === "string")` holds exactly when every option is a plain string |
| `Select.FindRecord` | components/form/select-input.tsx:137-138 | the lookup returns the first record of `data` carrying the value, or none when no record carries it |
| `Select.SelectedTextAsWritten` | components/form/select-input.tsx:138 | an all-string list shows the selected value; otherwise the label of the first record carrying the value; a `TypeError` exactly when the list has a record and none carries the value; `MixedDataCrashes` gives an input that throws |
| `Select.MixedDataCrashes` | components/form/select-input.tsx:138 | as written, a list mixing strings and records throws when its string option is selected |
| `Select.SelectionText` | components/form/select-input.tsx:138 | corrected line 138: an all-string list, or a list with no record carrying the value, shows the value itself; otherwise the label of the first record carrying it |
| `Select.SelectionTextAgrees` | components/form/select-input.tsx:138 | wherever the written code shows a text, the corrected code shows the same text |
| `Select.PickedOptionShowsItsLabel` | components/form/select-input.tsx:133-138 | when values are unique, a picked option's value makes the box show that option's label |
| `Select.Display` | components/form/select-input.tsx:128-141 | the placeholder appears only if one is set and there is no selection; the selection appears exactly when `innerValue` is non-empty; never both; a selection component gets the first record carrying the value, otherwise the selection text is shown |
| `Select.SelectInput.constructor` | components/form/select-input.tsx:67-71 | on mount the selection is the synced `value`; the keyword is empty, the sheet is closed, nothing was reported |
| `Select.SelectInput.SyncValue` | components/form/select-input.tsx:69-71 | the selection becomes the prop value, or none when it is empty; an absent or empty value shows no selection; nothing else changes |
| `Select.SelectInput.Open` | components/form/select-input.tsx:75-78 | the sheet opens; the selection and the keyword stay as they were |
| `Select.SelectInput.SetKeyword` | components/form/select-input.tsx:89-98 | the keyword is replaced and the listed options become the filter for it |
| `Select.SelectInput.HandleValueChange` | components/form/select-input.tsx:80-87 | the selection becomes exactly the item; `onChange`, if given, receives that item; the sheet closes; a non-empty item hides the placeholder |
| `Select.SelectInput.Press` | components/form/select-input.tsx:177-181 | pressing a listed option selects its value; that option is in `data` and matches the keyword |
| `Auth.Launch` | contexts/auth.context.tsx:26-27 | a new provider has no credential and is loading |
| `Auth.AfterSignIn` | contexts/auth.context.tsx:33-36 | the credential becomes `c`; a successful write stores `c` under `@AuthData` |
| `Auth.AfterSignOut` | contexts/auth.context.tsx:38-41 | the credential is cleared; a successful removal deletes `@AuthData` and leaves every other entry as it was |
| `Auth.AfterLoad` | contexts/auth.context.tsx:43-57 | loading ends false in every case; the credential changes only to a credential stored under `@AuthData`, and a readable stored credential is always restored |
| `Auth.SignInSurvivesRestart` | contexts/auth.context.tsx:33-51 | after a persisted sign-in, a relaunch followed by a load restores the same credential |
| `Auth.SignOutSurvivesRestart` | contexts/auth.context.tsx:38-51 | after a persisted sign-out, a relaunch followed by a load finds no credential |
| `Auth.RestartRestoresOnlyStored` | contexts/auth.context.tsx:46-53 | a relaunch has a credential only if that credential was stored under `@AuthData` |
| `Auth.Redirect` | contexts/auth.context.tsx:78-91 | no redirect before navigation is ready or while loading; `/login` only when signed out outside `(auth)`; `/(tabs)/` only when signed in inside `(auth)`; the lemmas below give the converse and the settling |
| `Auth.RedirectWaits` | contexts/auth.context.tsx:79-83 | no redirect while navigation is not ready or while loading, whatever the other inputs |
| `Auth.RedirectWhenSettled` | contexts/auth.context.tsx:81-89 | when ready and loaded: `/login` iff signed out outside `(auth)`; `/(tabs)/` iff signed in inside `(auth)`; no redirect otherwise |
| `Auth.RedirectSettles` | contexts/auth.context.tsx:85-89 | after following a redirect, the guard issues none |
| `Auth.AuthProvider.constructor` | contexts/auth.context.tsx:26-27 | a new provider has no credential, is loading, and keeps the store's contents |
| `Auth.AuthProvider.SignIn` | contexts/auth.context.tsx:33-36 | the state after the call is `AfterSignIn` of the state before |
| `Auth.AuthProvider.SignOut` | contexts/auth.context.tsx:38-41 | the state after the call is `AfterSignOut` of the state before |
| `Auth.AuthProvider.LoadStorageData` | contexts/auth.context.tsx:43-57 | the state after the call is `AfterLoad` of the state before |
| `Auth.AuthProvider.ProtectedRoute` | contexts/auth.context.tsx:78-91 | the path handed to `router.replace` is the guard's decision; `/login` only when signed out, `/(tabs)/` only when signed in, and never while loading |
| `Auth.SignInThenRelaunch` | contexts/auth.context.tsx:29-57 | with any prior store contents, load, sign in, relaunch and load again gives back the signed-in credential |
| `Auth.ProviderValue` | contexts/auth.context.tsx:97 | the provided value is a truthy object carrying `loading` and an `authData` entry that is truthy exactly when signed in and then holds the credential's `token`, `email` and `username` |
| `Auth.UseContext` | contexts/auth.context.tsx:105 | `useContext` yields the provider's value when there is one, else the context's default |
| `Auth.UseAuth` | contexts/auth.context.tsx:104-111 | `useAuth` throws exactly when the context value is falsy, and otherwise returns that value unchanged |
| `Auth.UseAuthOutsideProviderAsWritten` | contexts/auth.context.tsx:18 | as written, `useAuth` outside any provider returns the empty default object and does not throw |
| `Auth.UseAuthFailsFastOutsideProvider` | contexts/auth.context.tsx:104-111 | with an `undefined` default, `useAuth` throws exactly when no provider is present |
| `TimeFrame.ComposeFields` | components/misc/timeframe.tsx:23-29 | setting the UTC hour, minute and second and reading the fields back gives the fields that were set |
| `TimeFrame.Recompose` | components/misc/timeframe.tsx:23-28 | every instant is rebuilt from its UTC fields, and each field lies in its range |
| `TimeFrame.SetTime` | components/misc/timeframe.tsx:20-33 | same UTC day and milliseconds as the input; 23:59:59 for "end", 00:00:00 for any other picker |
| `TimeFrame.SetTimeIdempotent` | components/misc/timeframe.tsx:20-33 | normalising twice equals normalising once |
| `TimeFrame.SetTimeDayLength` | components/misc/timeframe.tsx:24-28 | the "end" result is exactly 86,399 seconds after the start result |
| `TimeFrame.SetTimeBrackets` | components/misc/timeframe.tsx:22-29 | the start of the day is no later than the instant, and the end of the day is no earlier |
| `TimeFrame.Pick` | components/misc/timeframe.tsx:58-62 | the chosen bound becomes the picked date's UTC day at 00:00:00 or 23:59:59, keeping the picked date's milliseconds; the other bound is unchanged |
| `TimeFrame.PickEndKeepsOrder` | components/misc/timeframe.tsx:56-62 | an end date the picker offers keeps start <= end and lands on a day no later than today |
| `TimeFrame.PickStartInRange` | components/misc/timeframe.tsx:56-62 | a start date the picker offers lands between 1 January 2021 and now |
| `TimeFrame.StartCanPassEnd` | components/misc/timeframe.tsx:56-62 | an offered start date can still move the start past the end |
| `TimeFrame.TimeFramePicker.constructor` | components/misc/timeframe.tsx:40-42 | the sheet opens on the overview with the parent's dates |
| `TimeFrame.TimeFramePicker.Choose` | components/misc/timeframe.tsx:75-84 | from the overview, choosing a row opens its picker; the dates are untouched |
| `TimeFrame.TimeFramePicker.OnChange` | components/misc/timeframe.tsx:58-63 | the dates become `Pick` of the old dates for the open picker; the picker stays open |
| `TimeFrame.TimeFramePicker.Continue` | components/misc/timeframe.tsx:65 | back to the overview; the dates are untouched |
| `TimeFrame.TimeFramePicker.Finish` | components/misc/timeframe.tsx:91 | from the overview, hands back the current dates unchanged |

## Findings

| source | as written | input that shows it | evidently intended | confidence | as-written member | corrected member |
|---|---|---|---|---|---|---|
| components/form/select-input.tsx:138 | the text shown for a selection is `find(v => v.value === innerValue)!.label` whenever `data` is not all strings | `data = ["cash", {value: "card", label: "Card"}]` with `"cash"` selected: `find` yields `undefined` and `.label` throws a `TypeError` | a selection that matches no record shows the selected value, as an all-string list does | medium, not executed | `Select.MixedDataCrashes` | `Select.SelectionText`, `Select.PickedOptionShowsItsLabel` |
| contexts/auth.context.tsx:18 | the context's default value is `{}`, which is truthy, so the `if (!context)` check at line 107 never fires | `useAuth()` called in a component that has no `AuthProvider` above it returns `{}` | throw "useAuth must be used within an AuthProvider" | high, not executed | `Auth.UseAuthOutsideProviderAsWritten` | `Auth.UseAuthFailsFastOutsideProvider` |

## Left out

- Select.Display: shows the selected value where line 138 throws (a list with records but none carrying the value), because it uses the corrected selection text `Select.SelectionText`; `Select.SelectedTextAsWritten` models the throwing code.

- Rendering, styling, icons and the bottom-sheet animation are left out. So are `Keyboard.dismiss`, the `uuid` list keys, the "Nothing Found" text and the `balance` line.
- `formatText` and `formatter` are not part of this model. The selection text is modelled as it stands before `formatText` is applied.
- `toLowerCase` is modelled over ASCII letters only. Unicode case mapping is left out.
- Options are modelled with the record fields `value`, `label`, `disabled` and `selected`. The other keys a `SelectItem` may carry are left out.
- When a special component gets a plain-string option, JavaScript spreads the string into its characters. The model hands the option over unchanged.
- The `data`, `placeholder`, `onChange` and `selectComponent` props are fixed for a component's lifetime. Only `value` is re-synced.
- `AsyncStorage` is asynchronous; the model runs each call synchronously, with no interleaving. React state batching and effect scheduling are left out. So is the navigation listener, which becomes a `navigationReady` input.
- `Auth.AuthProvider.LoadStorageData` can be called any number of times. The mount effect that calls it exactly once is not modelled.
- JSON is abstract. A stored string is either a serialized credential or text that makes `JSON.parse` throw. Text that parses to something other than a credential (`null`, a number) is left out.
- `Auth.AuthProvider.SignIn`: when the write fails, the rejected promise that reaches the caller is left out. Only the state is modelled.
- `Auth.ProviderValue` leaves the `signIn` and `signOut` functions out of the provided object. They do not affect truthiness.
- Time zones are left out. The start picker's minimum, `new Date(2021, 0, 1)`, is in local time in the code; the model takes UTC midnight.
- The JavaScript `Date` range limit (±8.64e15 ms) is left out.
- A picker `onChange` that delivers no date (`date!` on `undefined`) is left out. `OnChange` always receives a date.
- The picker's bounds are a property of the native date picker. They appear as the `Offered` precondition of the lemmas about `Pick`, not as checks in the component.
- The API gateway, the notification context, the base64 helpers, the layouts and the screens are not part of this model.
