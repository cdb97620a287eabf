# gofinances: session state and monthly expense summary

This project models the two pieces of logic in the gofinances mobile app's
session provider and summary screen, and proves properties about them.

- **The session provider** (`AuthProvider`, `src/hooks/auth.tsx`). It keeps the signed-in
  `user`, a `loginLoading` flag and the storage record under `@gofinances:user`. It does
  four things: restore the record at start-up, sign in with Google, sign in with Apple,
  and sign out.
  - `Auth.Session` is a snapshot of the state: the user (`None` is the empty record `{}`),
    the flag, and storage as a `map<string, User>`.
  - Pure transition functions (`Restored`, `AfterGoogle`, `AfterApple`, `SignedOut`) say
    what each operation does to a snapshot.
  - The class `Auth.AuthProvider` holds the same three cells as fields. Each of its methods
    updates those fields in place, and is proved to match its transition function.
  - `Valid` is the invariant that every transition keeps: memory and storage agree, except
    before the first restore, when memory is still empty.
- **The Resume screen's `loadData`** (`src/screens/Resume/index.tsx`). It builds the per-user
  transactions key, keeps the expenses of the selected month (`Expensives`) and sums them
  (`SumAmounts`). It then walks the category list in order and emits every category whose
  sum is positive.
  - The nested `forEach` loops are the method `AggregateByCategory`. It is proved equal to
    the specification function `TotalsByCategory`.
  - Lemmas relate `TotalsByCategory` to the category list (order, completeness, copied
    fields) and to the month's total (the entries add up to it).
  - `handleDateChange` moves the selected `(year, month)` forward or back one month.

Amounts are integers (cents). Dates are `(year, month)` pairs with a 0-based month, as
`Date.getMonth` returns it. A property the code reads in a template literal can be missing,
`null` or a string: `Js.JsString`, with `Js.Interpolate` giving what `${…}` inserts.

Behaviour of the code worth knowing, which the model follows:
- A failed userinfo fetch after a successful Google redirect does not reach the caller.
  The promise chain is not awaited, so `GoogleSignIn` completes and the state is unchanged.
  There is no network error.
- In the Apple flow only a `null` `fullName` makes the code throw. The TypeScript `!`
  operator does not check anything at run time. So a `null` `givenName`, `familyName` or
  `email` is copied into the user as `null`, and the picture URL then ends in `null`.
- There is no "already in progress" rejection, and nothing handles a malformed stored record.
- The fixed Apple user name appears in the source file as the mis-decoded text `Usu√°rio`.
  It is modelled as written.

## Model

| member | source | states |
|---|---|---|
| `Auth.Initial` | src/hooks/auth.tsx:46-47 | the provider starts loading with the empty user and the storage as found, which satisfies the invariant |
| `Auth.Restored` | src/hooks/auth.tsx:115-125 | loading ends in every case and storage is untouched; a stored record becomes the user; without one the user stays as it was; from any valid state memory and storage then agree |
| `Auth.RestoreFromStart` | src/hooks/auth.tsx:114-128 | restoring the initial state gives the stored record when there is one, the empty user otherwise, with loading over and memory agreeing with storage |
| `Auth.SignedIn` | src/hooks/auth.tsx:68-69 | the user is replaced wholesale, the same record is stored under the key, every other key and the flag are unchanged |
| `Auth.AfterGoogle` | src/hooks/auth.tsx:49-75 | the call fails exactly when the redirect session threw, rethrowing its message; the state changes only for outcome type `success` with a fetched profile, which then becomes both the user and the stored record; the invariant is kept |
| `Auth.AppleUser` | src/hooks/auth.tsx:87-98 | a user exists exactly when the credential has a `fullName`; `id` is the authorization code, `email`, `given_name` and `family_name` are copied, `name` is the fixed label, and `picture` is the avatar prefix followed by the interpolated given name |
| `Auth.AfterApple` | src/hooks/auth.tsx:78-106 | the call fails exactly when the provider threw or the credential lacks `fullName`, and then the state is unchanged; a null credential is a no-op; otherwise the mapped user becomes both the user and the stored record; the invariant is kept |
| `Auth.SignedOut` | src/hooks/auth.tsx:108-112 | the user is empty, the key is gone from storage, nothing else changes, and memory agrees with storage |
| `Auth.SignOutIdempotent` | src/hooks/auth.tsx:108-112 | signing out twice gives the same state as signing out once |
| `Auth.AuthProvider.constructor` | src/hooks/auth.tsx:46-47 | the provider's fields start as the initial snapshot |
| `Auth.AuthProvider.LoadUserDataFromStorage` | src/hooks/auth.tsx:115-125 | the fields become the restored snapshot |
| `Auth.AuthProvider.GoogleSignIn` | src/hooks/auth.tsx:49-75 | the fields and the result are those of the Google transition |
| `Auth.AuthProvider.AppleSignIn` | src/hooks/auth.tsx:78-106 | the fields and the result are those of the Apple transition |
| `Auth.AuthProvider.SignOut` | src/hooks/auth.tsx:108-112 | the fields become the signed-out snapshot |
| `Resume.DataKey` | src/screens/Resume/index.tsx:70 | the key is the prefix `@gofinances:transactions_user:` followed by the interpolated user id (`undefined` for the empty user) |
| `Resume.StoredTransactions` | src/screens/Resume/index.tsx:71-72 | a key with nothing stored reads as the empty list, otherwise as the stored list |
| `Resume.Expensives` | src/screens/Resume/index.tsx:74-79 | the result keeps exactly the transactions of type `negative` whose month and year are the selected ones and is no longer than the input; `ExpensivesKeepOccurrences` gives the occurrence counts |
| `Resume.SumAmounts` | src/screens/Resume/index.tsx:82-85 | the `reduce` over amounts: the total is never negative when no amount is, and is 0 when every amount is 0; `ExpensesTotal` and `TotalsAddUp` fix what it adds up |
| `Resume.CategorySum` | src/screens/Resume/index.tsx:93-98 | the inner `forEach` sum: never negative when no amount is, and 0 when nothing is filed under the key; `ExpensesCategorySum` and `AggregateByCategory` fix what it adds up |
| `Resume.ExpensivesKeepOccurrences` | src/screens/Resume/index.tsx:74-79 | every selected expense occurs in the result exactly as often as in the stored list, and nothing else occurs in it |
| `Resume.ExpensesTotal` | src/screens/Resume/index.tsx:82-85 | the total of the kept transactions equals the sum, over the whole stored list, of the amounts of selected expenses, duplicates included |
| `Resume.ExpensesCategorySum` | src/screens/Resume/index.tsx:90-98 | a category's sum over the kept transactions equals the sum over the stored list of the selected expenses filed under that category |
| `Resume.TotalsByCategory` | src/screens/Resume/index.tsx:88-118 | there are at most as many entries as categories, and every entry's total is positive and equals the sum of the kept transactions filed under its key |
| `Resume.TotalsFollowCategories` | src/screens/Resume/index.tsx:88-118 | the entries correspond, in increasing position, to exactly the categories whose sum is positive, and each copies key, name and color from its category with that sum as total |
| `Resume.NoExpensesNoEntries` | src/screens/Resume/index.tsx:88-118 | with no kept transactions no category is emitted |
| `Resume.EmptyStorageEmptySummary` | src/screens/Resume/index.tsx:70-72 | when nothing is stored under the user's key the summary is empty |
| `Resume.TotalsAddUp` | src/screens/Resume/index.tsx:82-113 | with distinct category keys, every transaction's category listed and no negative amount, the emitted totals add up to the overall expense total |
| `Resume.AggregateByCategory` | src/screens/Resume/index.tsx:88-118 | the nested loops with their running sum and pushes produce exactly `TotalsByCategory` |
| `Resume.NextMonth` | src/screens/Resume/index.tsx:59-60 | the result is a valid month exactly one month later, across year boundaries |
| `Resume.PrevMonth` | src/screens/Resume/index.tsx:61-62 | the result is a valid month exactly one month earlier, across year boundaries |
| `Resume.ChangeDate` | src/screens/Resume/index.tsx:58-64 | `next` moves one month forward and `prev` one month back, always to a valid month |
| `Resume.NavigationRoundTrip` | src/screens/Resume/index.tsx:58-64 | `next` then `prev`, and `prev` then `next`, both return to the starting month |
| `Resume.ResumeScreen.constructor` | src/screens/Resume/index.tsx:50-52 | the screen starts on the given month, not loading, with no entries |
| `Resume.ResumeScreen.HandleDateChange` | src/screens/Resume/index.tsx:58-64 | the selected month is replaced by the changed one, and nothing else changes |
| `Resume.ResumeScreen.LoadData` | src/screens/Resume/index.tsx:67-124 | the published entries are the per-category totals of the selected expenses read under the user's key, the month is unchanged, and loading is over |

## Left out

- The authorization and userinfo URLs: the only part modelled is the `response_type` constant `token`. The client id and redirect URI come from environment variables.
- `AuthSession.startAsync`, `AppleAuthentication.signInAsync`, `fetch` and AsyncStorage are external calls. Their results are inputs: an `Attempt`, a function from access token to fetched profile, and a map.
- Asynchrony: the un-awaited userinfo fetch is modelled as completing at once. No interleaving between operations is modelled, such as a sign-in that overlaps the initial restore.
- JSON encoding: stored values are already-decoded records. The profile is taken as a `User`, so fields Google sends beyond the six are not modelled. Nothing is modelled for a malformed record, since the code has no handling for one.
- Storage calls are assumed to succeed and stored records to be well-formed. The code does not handle either failure. `setItem` is not awaited in either sign-in, so a failed write is swallowed and memory and storage then disagree. A rejected `removeItem` in `signOut` leaves the record stored after the user is cleared. A failed `getItem`, or a `JSON.parse` that throws on a malformed record, skips `setLoginLoading(false)`, so loading never ends. `Agree`, `Valid` and "loading ends in every case" hold only under this assumption.
- Both sign-in flows rethrow the provider's message unchanged. The `Error(String(err))` text wrapping is not modelled.
- The auth storage and the transactions storage are one AsyncStorage in the app. They are two separate maps here, because each screen reads only its own key.
- `src/utils/categories` is not part of this model. The category list is a parameter.
- Display fields: `totalFormatted` (locale currency formatting) and `percent` (a floating-point division by the total, which may be zero). `expensivesTotal` is used only for `percent`; `TotalsAddUp` relates it to the entries.
- Float amounts and `Number(...)` parsing are left out. Amounts are integers.
- Date parsing and day clamping: `new Date(...)`, date-fns `format`, and the day-of-month clamping of `addMonths`/`subMonths`. Dates are `(year, month)` pairs.
- Rendering, navigation and React context lookup (`useAuth`): these hold no logic.
