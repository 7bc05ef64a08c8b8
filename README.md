# Admin portal logic, modelled in Dafny

This project models the logic inside an admin portal written in React and TypeScript. The portal lets an admin sign in, look over employees and their expense claims, and manage expense subcategories. Most of the portal is markup. The logic modelled here is:

- **Expense overview** (`ExpenseManagement`). `calculateTotals` folds a user's expenses into a total, an approved sum and a rejected sum. The search box keeps the users whose name, email or employee code contains the search term, ignoring case. The expanded-row set is toggled per user. The overview's component state is the class `ExpenseManagementView`.
- **Subcategory table** (`CategoryManagement`). Three fixed categories each hold an ordered list of subcategories. The add handler trims the typed name and ignores an empty one. It appends the entry, attaches a rate only for local convenience, and then clears the form. The remove handler filters by id. The page state is the class `CategoryManager`.
- **Mock session** (`AuthContext`). The provider keeps `isAuthenticated`, `adminEmail`, the `adminAuth` slot of local storage and the current route. It offers a mount-time restore, `login` (any non-empty email and password) and `logout`. The class `AuthProvider` holds the state. Each method is specified by a transition function on a `Session` value, and the lemmas are stated over those functions.
- **Greeting name** (`Dashboard.GetAdminName`, and the identical copy `Profile.GetAdminName`). The greeting is the text before the first `@`, capitalised, or `Admin` when there is no email.
- **Dashboard counts and redirect** (`Dashboard`). Active and manager counts are computed over the sample users. A signed-out visitor is sent home.
- **View toggle** (`ViewListsCard`). Each button shows or hides its list. A button is highlighted exactly when its list is shown.

Supporting modules:

- `Wrappers` defines `Option` (a TypeScript `null`/`undefined`) and `Result` (a return or a throw).
- `Text` models the `String.prototype` operations the code uses: `includes`, `split` on one character, `charAt`, `slice`, `trim` and ASCII case mapping.
- `Sequences` defines the subsequence relation used to say that a filter keeps order.

JavaScript's `reduce` is modelled as a left fold (`SumBy`). `calculateTotals` (`CalculateTotals`), built from three such folds, is proved equal to an expense-by-expense reference sum (`Tally`) by `CalculateTotalsIsTally`.

The repository has no approve or reject transition: expenses are static sample data, and the types let any expense carry an optional approved amount. So the model has no approve or reject transition, and it gives every expense an `Option<int>` approved amount. It keeps the code's `approvedAmount || amount` fallback, which applies to a missing approved amount and to an approved amount of 0.

Several defining functions carry no contract of their own. Lemmas state their behaviour:

- `ExpenseManagement.SumBy` (the `reduce` fold): `SumByFrom`, and through it `CalculateTotalsIsTally`.
- `ExpenseManagement.CalculateTotals`: `CalculateTotalsIsTally`, `CalculateTotalsEmpty`, `CalculateTotalsAppend`, `CalculateTotalsSnoc`, `ApprovedAndRejectedWithinTotal` and `TotalsExamples`.
- `ExpenseManagement.MatchesSearch` (the search predicate): the contract of `FilterUsers`, with `EmptySearchKeepsAll` for the empty term.
- `AuthContext.Restored`: `RestoreReadsStorage` and `RestoreOfForeignRecord`. `AuthContext.LoggedIn`: `LoginNeedsBothFields` and `LoginSucceeds`. `AuthContext.LoggedOut`: `LogoutClears`. All three: `StepPreservesInvariant`, `LoginLogoutRoundTrip` and `UseAuthAfterLoginAndLogout`.
- `Dashboard.GetAdminName`: `AdminNameDefault`, `AdminNameIsCapitalizedLocalPart`, `AdminNameWithoutAt` and `AdminNameLeadingAt`. `Profile.GetAdminName`: `AgreesWithDashboard` and `AdminNameCases`.
- `ViewListsCard.OnYearlyClick` and `OnProjectClick`, through `Click`: `ClickRule` and `ClickTwice`. `ViewListsCard.ButtonVariant`: `VariantFollowsView`.

## Model

| member | source | states |
|---|---|---|
| `Text.ToLower` | src/components/ExpenseManagement.tsx:106-108 | `toLowerCase()` keeps the length and maps each character on its own, ASCII upper case to lower case. |
| `Text.ToUpper` | src/pages/Dashboard.tsx:38 | `toUpperCase()` keeps the length and maps each character on its own, ASCII lower case to upper case. |
| `Text.CharAt` | src/pages/Dashboard.tsx:38 | `charAt(i)` is the one character at `i`, and the empty string exactly when `i` is out of range. |
| `Text.SliceFrom` | src/pages/Dashboard.tsx:38 | `slice(start)` is the suffix from `start`, and the empty string when `start` is past the end. |
| `Text.Includes` | src/components/ExpenseManagement.tsx:106-108 | `s.includes(t)` holds exactly when `t` occurs in `s` at some index. The empty term occurs everywhere. |
| `Text.Split` | src/pages/Dashboard.tsx:38 | `split('@')` yields at least one piece. No piece contains `@`, and joining the pieces with `@` gives the email back. |
| `Text.SplitHeadIsBeforeFirst` | src/pages/Dashboard.tsx:38 | `split('@')[0]` is a prefix of the email without `@`. It is followed by `@` unless it is the whole email. |
| `Text.BeforeFirstUnique` | src/pages/Dashboard.tsx:38 | Only one string is the text before the first `@`. |
| `Text.Trim` | src/components/CategoryManagement.tsx:31 | `trim()` removes only white space, from both ends only. The result is empty exactly when the input is all white space. |
| `ExpenseManagement.WithStatus` | src/components/ExpenseManagement.tsx:96-101 | The status filters keep exactly the expenses with that status, in their original order. |
| `ExpenseManagement.WithStatusCounts` | src/components/ExpenseManagement.tsx:96-101 | A status filter keeps each expense with that status as many times as it occurs, and no other expense. |
| `ExpenseManagement.ApprovedValue` | src/components/ExpenseManagement.tsx:98 | The logical-or fallback uses the approved amount when present and non-zero. Otherwise it uses the requested amount. |
| `ExpenseManagement.CalculateTotalsIsTally` | src/components/ExpenseManagement.tsx:94-103 | On every list, `calculateTotals` equals the expense-by-expense reference. `total` sums every amount. `approved` sums approved values of approved expenses only. `rejected` sums amounts of rejected expenses only. |
| `ExpenseManagement.CalculateTotalsEmpty` | src/components/ExpenseManagement.tsx:94-103 | An empty list totals 0, 0, 0. |
| `ExpenseManagement.CalculateTotalsAppend` | src/components/ExpenseManagement.tsx:94-103 | The totals of two concatenated lists are the sums of their totals. |
| `ExpenseManagement.CalculateTotalsSnoc` | src/components/ExpenseManagement.tsx:95-101 | One more expense raises `total` by its amount. A pending one adds to neither `approved` nor `rejected`. |
| `ExpenseManagement.ApprovedAndRejectedWithinTotal` | src/components/ExpenseManagement.tsx:94-103 | With non-negative amounts and no approval above the requested amount, `approved + rejected <= total` and `0 <= rejected <= total`. |
| `ExpenseManagement.TotalsExamples` | src/components/ExpenseManagement.tsx:94-103 | 5000 approved at 4500 totals (5000, 4500, 0). 2500 rejected totals (2500, 0, 2500). |
| `ExpenseManagement.FilterUsers` | src/components/ExpenseManagement.tsx:105-109 | A user is kept exactly when the lower-cased term occurs in the lower-cased name, email or code. The result is an order-preserving subsequence. |
| `ExpenseManagement.FilterUsersCounts` | src/components/ExpenseManagement.tsx:105-109 | The search keeps each matching user as many times as it occurs, and no other user. |
| `ExpenseManagement.EmptySearchKeepsAll` | src/components/ExpenseManagement.tsx:105-109 | An empty search term keeps every user, in order. |
| `ExpenseManagement.Toggled` | src/components/ExpenseManagement.tsx:77-87 | Toggling flips membership of that id. Every other id keeps its membership. |
| `ExpenseManagement.ToggleTwice` | src/components/ExpenseManagement.tsx:77-87 | Toggling the same id twice restores the set. |
| `ExpenseManagement.ExpenseManagementView.constructor` | src/components/ExpenseManagement.tsx:72-75 | Starts with an empty search, nothing expanded, nothing selected and the modal closed. |
| `ExpenseManagement.ExpenseManagementView.SetSearchTerm` | src/components/ExpenseManagement.tsx:122 | Sets the search term. Nothing else changes. |
| `ExpenseManagement.ExpenseManagementView.ToggleUserExpanded` | src/components/ExpenseManagement.tsx:77-87 | The new set is the old set with that id toggled. Nothing else changes. |
| `ExpenseManagement.ExpenseManagementView.HandleViewExpense` | src/components/ExpenseManagement.tsx:89-92 | Selects the expense and opens the modal. |
| `ExpenseManagement.ExpenseManagementView.SetExpenseModalOpen` | src/components/ExpenseManagement.tsx:222 | Sets the modal's open flag and keeps the selection. |
| `ExpenseManagement.ExpenseManagementView.FilteredUsers` | src/components/ExpenseManagement.tsx:105-109 | The listed users are exactly the sample users matching the current term, in order. |
| `CategoryManagement.NewSubCategory` | src/components/CategoryManagement.tsx:34-38 | The new entry has the given id and the trimmed name. It gets a rate only for `localConvenience` with a non-empty rate box. |
| `CategoryManagement.WithoutId` | src/components/CategoryManagement.tsx:58 | Removes every entry with that id and keeps the rest in order. The list is unchanged exactly when no entry has that id. |
| `CategoryManagement.WithoutIdCounts` | src/components/CategoryManagement.tsx:58 | Removal keeps every entry with another id as many times as it occurs, and no entry with that id. |
| `CategoryManagement.RemoveUndoesAppend` | src/components/CategoryManagement.tsx:40-60 | Removing the id of a just-appended entry with a fresh id restores the list. |
| `CategoryManagement.CategoryManager.constructor` | src/components/CategoryManagement.tsx:17-28 | The state has exactly the keys `travel`, `localConvenience` and `equipment`. Each list is empty, and the form fields are empty. |
| `CategoryManagement.CategoryManager.SetNewSubCategory` | src/components/CategoryManagement.tsx:99 | Updates one key of the name boxes. |
| `CategoryManagement.CategoryManager.SetNewRate` | src/components/CategoryManagement.tsx:110 | Sets the rate box. |
| `CategoryManagement.CategoryManager.SetActiveCategory` | src/components/CategoryManagement.tsx:118-126 | Opens (key) or closes (`''`) the add form. |
| `CategoryManagement.AddedSubCategory` | src/components/CategoryManagement.tsx:30-53 | A name that is empty after trimming changes nothing. A missing key throws before any change. Otherwise one entry is appended to that key's list only, and the name box for that key, the rate box and the active category are cleared. |
| `CategoryManagement.CategoryManager.AddSubCategory` | src/components/CategoryManagement.tsx:30-53 | The outcome and the new state are those of `AddedSubCategory` on the old state. |
| `CategoryManagement.CategoryManager.RemoveSubCategory` | src/components/CategoryManagement.tsx:55-60 | Filters that key's list by id, and other keys are untouched. An absent id leaves the state unchanged. A missing key throws. |
| `AuthContext.Initial` | src/contexts/AuthContext.tsx:14-15 | Starts unauthenticated with a null email. |
| `AuthContext.RestoreReadsStorage` | src/contexts/AuthContext.tsx:18-25 | On mount, a stored record signs in under its email. No record leaves the state unchanged. |
| `AuthContext.RestoreOfForeignRecord` | src/contexts/AuthContext.tsx:18-25 | A stored record without an email signs in with no email. This breaks the invariant, so the invariant needs storage written by `login`. |
| `AuthContext.LoginNeedsBothFields` | src/contexts/AuthContext.tsx:27-35 | An empty email or password changes no state, storage or route. |
| `AuthContext.LoginSucceeds` | src/contexts/AuthContext.tsx:29-34 | Signs in under the email. Stores the email only, never the password, and routes to `/dashboard`. |
| `AuthContext.LogoutClears` | src/contexts/AuthContext.tsx:37-42 | Signs out, nulls the email, removes the stored record and routes to `/`. It is idempotent. |
| `AuthContext.InitialSatisfiesInvariant` | src/contexts/AuthContext.tsx:14-15 | The initial state satisfies the session invariant when storage is empty or written by `login`. |
| `AuthContext.StepPreservesInvariant` | src/contexts/AuthContext.tsx:14-42 | Each operation keeps "authenticated exactly when the email is non-null" and "storage holds only what `login` writes". |
| `AuthContext.RunPreservesInvariant` | src/contexts/AuthContext.tsx:14-42 | The invariant holds after any sequence of mounts, logins and logouts. |
| `AuthContext.LoginLogoutRoundTrip` | src/contexts/AuthContext.tsx:27-42 | Login followed by logout leaves the fresh-browser state: signed out, no email, nothing stored, at `/`. |
| `AuthContext.UseAuth` | src/contexts/AuthContext.tsx:51-57 | Returns the context value, and throws exactly when no provider is present. |
| `AuthContext.UseAuthAfterLoginAndLogout` | src/contexts/AuthContext.tsx:27-57 | A `useAuth` caller sees signed in under the email after a successful login, what it saw before after a login with an empty field, and signed out with no email after logout. |
| `AuthContext.AuthProvider.constructor` | src/contexts/AuthContext.tsx:13-16 | The provider starts in `Initial` with the browser's storage and route. |
| `AuthContext.AuthProvider.RestoreSession` | src/contexts/AuthContext.tsx:18-25 | The new state is `Restored` of the old. |
| `AuthContext.AuthProvider.Login` | src/contexts/AuthContext.tsx:27-35 | The new state is `LoggedIn` of the old. After a successful login, `useAuth` on the provider's value returns signed in under that email. |
| `AuthContext.AuthProvider.Logout` | src/contexts/AuthContext.tsx:37-42 | The new state is `LoggedOut` of the old. Afterwards `useAuth` on the provider's value returns signed out with no email. |
| `Dashboard.AdminNameDefault` | src/pages/Dashboard.tsx:36-37 | A null or empty email greets `Admin`. |
| `Dashboard.AdminNameIsCapitalizedLocalPart` | src/pages/Dashboard.tsx:38 | A non-empty email greets the text before the first `@`, with its first character upper-cased and the rest unchanged. The greeting has the same length as that text. |
| `Dashboard.AdminNameWithoutAt` | src/pages/Dashboard.tsx:38 | An email without `@` greets the whole string, capitalised. |
| `Dashboard.AdminNameLeadingAt` | src/pages/Dashboard.tsx:38 | An email starting with `@` greets the empty string. |
| `Dashboard.UsersWhere` | src/pages/Dashboard.tsx:81-87 | The filter keeps exactly the accepted users, in order. |
| `Dashboard.UsersWhereCounts` | src/pages/Dashboard.tsx:81-87 | The filter keeps each accepted user as many times as it occurs, and no other user. |
| `Dashboard.CountIsTotalIff` | src/pages/Dashboard.tsx:76-87 | A filtered count never exceeds the total. It equals the total exactly when every user passes. |
| `Dashboard.CountSnoc` | src/pages/Dashboard.tsx:81-87 | A filtered count is 0 on no users, and one more user adds 1 exactly when the filter accepts it. |
| `Dashboard.ActiveCount` | src/pages/Dashboard.tsx:81 | The Active figure is at most the Total figure. It equals it exactly when every user is active. |
| `Dashboard.ManagerCount` | src/pages/Dashboard.tsx:87 | The Managers figure is at most the Total figure. It equals it exactly when every user is a manager. |
| `Dashboard.DummyUserCounts` | src/pages/Dashboard.tsx:17-87 | The sample data show 6 users, 5 active and 2 managers. |
| `Dashboard.GuardedRoute` | src/pages/Dashboard.tsx:30-34 | A signed-out visitor is sent to `/`. A signed-in one stays. |
| `Dashboard.GuardAfterLoginAndLogout` | src/pages/Dashboard.tsx:30-34 | After a successful login the dashboard stays at `/dashboard`. After logout it goes to `/`. |
| `Profile.AgreesWithDashboard` | src/pages/Profile.tsx:34-37 | The profile copy of `getAdminName` agrees with the dashboard copy on every input. |
| `Profile.AdminNameCases` | src/pages/Profile.tsx:34-37 | A null or empty email greets `Admin`. Otherwise the greeting is the local part capitalised. That is the whole email when it has no `@`, and empty when it starts with `@`. |
| `ViewListsCard.ClickRule` | src/components/ViewListsCard.tsx:27-35 | A click hides the button's view if it is showing. Otherwise it shows that view. |
| `ViewListsCard.ClickTwice` | src/components/ViewListsCard.tsx:27-35 | Two clicks on one button return to the start from no view or that button's view. From the other view they end on no view. |
| `ViewListsCard.VariantFollowsView` | src/components/ViewListsCard.tsx:27-36 | A button uses the `default` variant exactly when its view is active. At most one button does. A click flips the clicked button and clears the other. |

## Left out

- Rendering: JSX markup, styling, badges, dialogs, icons and the toast after an add.
- Charts and static tables: the annual expense chart, the stats cards, the expense list view and the expense detail modal. They hold static data or only display an expense.
- Approve and reject of expenses, and partial approval: no code in the repository implements them. The pending-requests bar only calls callbacks of a parent that is not part of this model.
- Form-only components: the add-user and edit-user modals and the login page, which only forwards to `login`.
- Subcategory ids come from `Date.now()`, and the model takes the id as a parameter. Two adds in the same millisecond can still share an id, and `WithoutId` removes every entry with that id.
- `parseFloat` of the rate: the rate is kept as the text typed into the rate box.
- Local storage and JSON: the `adminAuth` slot is modelled as an already-parsed record. An empty-string item, malformed JSON (where `JSON.parse` throws) and a stored `null` are not modelled.
- React Router's `navigate` is modelled as an assignment to a route field.
- React scheduling: the handlers are modelled as sequential updates of the current state. Batching and reads of a stale render's state are not modelled.
- `useAuth`'s context lookup is a parameter: the provider's value, or none.
- Case mapping covers ASCII letters only. Full Unicode `toLowerCase`/`toUpperCase`, which can change a string's length, is not modelled, so the same-length property holds for the ASCII mapping only.
- JavaScript numbers are modelled as unbounded integers: there are no fractions, `NaN` or precision loss.
- JavaScript object quirks such as inherited keys like `toString` are not modelled. A category key is either present in the state or not.
