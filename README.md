# Spendee client: ledger, task list, forms and guards

This project models the logic of a React finance and task client. The user's
dashboard holds a list of income and expense transactions and a balance
derived from it. The list can be filtered by day and type, and the first eight
entries are shown with a "View n more" link. A task manager holds a task list
with add, status change and delete. Registration and login forms validate
their fields and map server refusals to field errors. A route guard admits a
session with a stored token. Admin pages list users, fold summary cards open
and shut, and show one user's transactions or tasks.

Each page is a `class` whose fields are the page's React state. Each handler is
a `method` that changes those fields in one atomic step. Every network request
is a parameter of type `Reply<T>`: either `Ok(data)` or `Failed(response)`,
where `response` is the HTTP status and body when there is one. Browser
session storage is a shared `SessionStorage` object with the two keys the pages
use. Amounts are whole cents (`int`). Dates are day ordinals (`Day = int`), so
two dates are equal exactly when they fall on the same calendar day.

Derived values are pure functions:

- the balance is income total minus expense total;
- the filtered list keeps the entries matching both criteria, in order;
- the recent view is a prefix of at most eight entries plus a remainder count;
- the two registration patterns are ghost predicates describing what the
  regular expressions match, with executable checks proved equivalent;
- the user lookup returns the first user with the given email.

The load sort is JavaScript's stable `Array.prototype.sort` with a
newest-first comparator. It is modelled by a reference insertion sort. The
model proves that sort is a permutation, is in date order, keeps the arrival
order within each day, and is the only list with those three properties.

Facts about the code that a reader might not expect:

- The list changes only after the server confirms a request. A failed request
  leaves the list and the balance as they were.
- A confirmed delete removes every entry carrying that id, with all of its
  copies (`Common.RemoveById`).
- Only the task status change checks for a stored token before sending its
  request. The other requests go out with whatever the storage holds.
- Adding an entry and then deleting its id restores the list exactly when the
  created entry's id is new (`Ledger.AddThenDelete`,
  `Ledger.AddThenDeleteNeedsFreshId`).
- The administrator's logout icon only navigates to `/admin/login`. Unlike the
  user dashboard's logout, it leaves the session token in storage.
- The admin user pages keep their state when the route parameter changes.
  With an unset parameter the previous user and rows stay. With a failed users
  fetch the previous user stays, while the rows are those of the new parameter
  when their own request succeeds, so one user's name can head another's rows.

## Model

| member | source | states |
|---|---|---|
| Ledger.BalanceIsSignedSum | src/pages/Dashboard.tsx:98-108 | The balance (income total minus expense total) equals the entry-by-entry signed sum. Income adds, expense subtracts, any other type adds nothing, and the empty list has balance 0. |
| Ledger.BalanceConcat | src/pages/Dashboard.tsx:98-108 | The balance of a concatenation is the sum of the two balances. |
| Ledger.BalancePrepend | src/pages/Dashboard.tsx:130-131 | Putting one entry in front changes the balance by exactly that entry's signed amount. |
| Ledger.BalancePermutation | src/pages/Dashboard.tsx:85-87 | Two lists with the same entries, in any order, have the same balance, so sorting never changes it. |
| Common.RemoveById | src/pages/Dashboard.tsx:168 | An element stays after a delete exactly when it was in the list and its id differs from the deleted id. Each staying element keeps all of its copies, and no copy of a deleted one is left. The task panel's delete uses the same filter. |
| Common.RemoveByIdIsSubsequence | src/pages/Dashboard.tsx:168 | The elements that stay keep their relative order. |
| Ledger.RemoveMissingId | src/pages/Dashboard.tsx:168 | Deleting an id that no entry carries leaves the list unchanged. |
| Ledger.AddThenDeleteNeedsFreshId | src/pages/Dashboard.tsx:129-170 | Conversely, if adding an entry and then deleting its id restores the list, no entry of the list had that id. |
| Ledger.AddThenDelete | src/pages/Dashboard.tsx:129-170 | Adding an entry with a fresh id and then deleting that id restores the list and its balance. |
| TransactionFilter.Filter | src/components/ViewAllTransactionsDrawer.tsx:53-60 | An entry is in the view exactly when it is in the list, falls on the chosen day (if one is set) and has the chosen type (if a non-empty one is set). The view is never longer than the list. |
| TransactionFilter.OnDay | src/components/ViewAllTransactionsDrawer.tsx:54-57 | With only the day set, the view holds exactly the entries of that day. |
| TransactionFilter.FilterCounts | src/components/ViewAllTransactionsDrawer.tsx:53-60 | The view holds every copy of each matching entry and no copy of any other entry. |
| TransactionFilter.OnDayCounts | src/components/ViewAllTransactionsDrawer.tsx:54-57 | The view of one day holds every copy of each entry of that day and nothing else. |
| TransactionFilter.FilterIsSubsequence | src/components/ViewAllTransactionsDrawer.tsx:53-60 | The view is an order-preserving subsequence of the list. |
| TransactionFilter.FilterWithoutCriteria | src/components/ViewAllTransactionsDrawer.tsx:54-58 | With no day and no (or an empty) type, the view is the whole list. |
| TransactionFilter.FilterIdempotent | src/components/ViewAllTransactionsDrawer.tsx:53-60 | Filtering the view again with the same criteria returns the view. |
| TransactionFilter.TypeViewKeepsTotal | src/components/ViewAllTransactionsDrawer.tsx:58 | The view of one type carries that type's whole total. |
| RecentTransactions.Recent | src/components/RecentTransactionsList.tsx:31-123 | The empty state appears exactly for the empty list. Otherwise the first min(8, n) entries are shown in order, the "more" link appears exactly when n > 8, and shown plus announced entries add up to n. |
| Dashboard.Insert | src/pages/Dashboard.tsx:85 | One insertion step of the reference sort keeps the same entries. |
| Dashboard.SortByDateDesc | src/pages/Dashboard.tsx:85 | The reference sort returns the same entries as its input. |
| Dashboard.SortIsDescending | src/pages/Dashboard.tsx:85 | The sorted list has non-increasing dates. |
| Dashboard.SortIsStable | src/pages/Dashboard.tsx:85 | For every day, that day's entries appear in the sorted list in the order they arrived. |
| Dashboard.SortIsUnique | src/pages/Dashboard.tsx:85 | Any list with the same entries, in date order, that keeps arrival order within each day equals the reference sort, so the reference fixes what a stable sort must return. |
| Dashboard.DashboardPage.constructor | src/pages/Dashboard.tsx:55-70 | The page starts empty with balance 0, an INCOME draft dated today, no deletion choice, no filters and not loading. |
| Dashboard.DashboardPage.FetchTransactions | src/pages/Dashboard.tsx:78-96 | A success makes the list the response's entries, newest first and stable within a day, and the balance their signed sum. A failure changes neither. The balance invariant is kept. |
| Dashboard.DashboardPage.AddTransaction | src/pages/Dashboard.tsx:110-156 | A request is sent exactly when amount and description are non-empty. A success puts the created entry in front without re-sorting, adds its signed amount to the balance and resets the draft. Any failure leaves list, balance and draft as they were. Loading is off after any attempt. |
| Dashboard.DashboardPage.DeleteTransaction | src/pages/Dashboard.tsx:158-189 | A request is sent exactly when an id is chosen; without one nothing changes, the choice included. A success removes every entry with that id in order, keeps the balance equal to the list's balance and clears the choice. A failure changes nothing. Loading is off after any attempt. |
| Dashboard.DashboardPage.ChooseForDeletion | src/pages/Dashboard.tsx:864-866 | The trash button records the entry's id as the deletion choice. |
| Dashboard.DashboardPage.EditIncomeAmount | src/pages/Dashboard.tsx:349-355 | Typing an amount in the income drawer sets the amount and makes the draft an INCOME, leaving the other fields. |
| Dashboard.DashboardPage.EditExpenseAmount | src/pages/Dashboard.tsx:450-455 | Typing an amount in the expense drawer sets the amount and makes the draft an EXPENSE, leaving the other fields. |
| Dashboard.DashboardPage.EditDate | src/pages/Dashboard.tsx:365-370 | The date input replaces only the draft's date. |
| Dashboard.DashboardPage.EditDescription | src/pages/Dashboard.tsx:380-385 | The description input replaces only the draft's description. |
| Dashboard.DashboardPage.SetFilterDate | src/pages/Dashboard.tsx:723 | The day criterion becomes the chosen day, or none when the input is cleared. |
| Dashboard.DashboardPage.SetFilterType | src/pages/Dashboard.tsx:737 | The "All" option stores no type criterion. A type criterion is in force exactly when a non-empty type was chosen. |
| Dashboard.DashboardPage.FilteredTransactions | src/pages/Dashboard.tsx:195-199 | The page's filtered list is an order-preserving subsequence of its list holding exactly the matching entries, each with all of its copies. With both criteria unset it is the whole list. |
| Dashboard.DashboardPage.RecentList | src/pages/Dashboard.tsx:568-680 | When the list is in date order, every shown entry is at least as new as every entry counted in "View n more". |
| Dashboard.DashboardPage.Logout | src/pages/Dashboard.tsx:72-76 | Both session keys are removed and the browser goes to `/login`. |
| TaskManager.WithStatus | src/pages/TaskManager.tsx:162-164 | A confirmed status change keeps the length and order, gives each task with the id the new status, keeps its other fields, and leaves every other task as it was. |
| TaskManager.StatusChangeReverts | src/pages/TaskManager.tsx:144-165 | Any status can follow any status. When ids are unique, changing back to the old status restores the list. |
| TaskManager.TaskManagerPanel.constructor | src/pages/TaskManager.tsx:55-68 | The panel starts with no tasks, an empty ONGOING draft, no deletion choice and not fetching. |
| TaskManager.TaskManagerPanel.FetchTasks | src/pages/TaskManager.tsx:70-94 | A success replaces the list with the response unsorted. A failure keeps it. Fetching is off afterwards. |
| TaskManager.TaskManagerPanel.AddTask | src/pages/TaskManager.tsx:96-142 | A request is sent exactly when title, description and due date are non-empty. A success puts the created task in front and resets the draft to ONGOING. Otherwise list and draft are unchanged. |
| TaskManager.TaskManagerPanel.ChangeStatus | src/pages/TaskManager.tsx:144-202 | A request is sent exactly when a non-empty token is stored. A confirmed change rewrites only the matching tasks' status. Otherwise the list is unchanged. |
| TaskManager.TaskManagerPanel.DeleteTask | src/pages/TaskManager.tsx:204-233 | A request is sent exactly when an id is chosen. A success removes the matching tasks in order and clears the choice. A failure changes neither. |
| TaskManager.TaskManagerPanel.ChooseForDeletion | src/pages/TaskManager.tsx:499-502 | The trash button records the task's id as the deletion choice. |
| TaskManager.TaskManagerPanel.EditTitle | src/pages/TaskManager.tsx:349-354 | The title input replaces only the draft's title. |
| TaskManager.TaskManagerPanel.EditDescription | src/pages/TaskManager.tsx:367-372 | The description input replaces only the draft's description. |
| TaskManager.TaskManagerPanel.EditDueDate | src/pages/TaskManager.tsx:385-390 | The date input replaces only the draft's due date. |
| TaskManager.TaskManagerPanel.EditStatus | src/pages/TaskManager.tsx:402-407 | The status select replaces only the draft's status. |
| RegisterPage.ValidateEmail | src/pages/RegisterPage.tsx:38-41 | The check accepts exactly the strings of the email pattern: a non-empty run of `[a-zA-Z0-9._%+-]`, `@`, a non-empty run of `[a-zA-Z0-9.-]`, `.`, then 2 to 6 ASCII letters ending the string. |
| RegisterPage.ValidatePassword | src/pages/RegisterPage.tsx:43-47 | The check accepts exactly the strings of at least 8 characters from `[A-Za-z0-9@$!%*?&.]` that contain a lower-case letter, an upper-case letter, a digit and one of `@$!%*?&.`. |
| RegisterPage.TrimEmptyIffBlank | src/pages/RegisterPage.tsx:52 | A name trims to the empty string exactly when every character is JavaScript white space or a line terminator, the empty name included. |
| RegisterPage.RegisterForm.constructor | src/pages/RegisterPage.tsx:25-32 | The form starts with empty fields, no flags and not loading. |
| RegisterPage.RegisterForm.SetName | src/pages/RegisterPage.tsx:174 | The name input replaces the name. |
| RegisterPage.RegisterForm.SetEmail | src/pages/RegisterPage.tsx:195 | The email input replaces the email. |
| RegisterPage.RegisterForm.SetPassword | src/pages/RegisterPage.tsx:223 | The password input replaces the password. |
| RegisterPage.RegisterForm.EmailMessage | src/pages/RegisterPage.tsx:207-213 | A message shows exactly while the email is flagged. It reads "Invalid email format." exactly when the email does not match the pattern, and "Email already exists." exactly when it does. |
| RegisterPage.RegisterForm.Register | src/pages/RegisterPage.tsx:49-125 | All three checks run. The password flag is exactly the password check's failure. The email flag is the email check's failure or a 400 "Email already exists" refusal. A request is sent exactly when all checks pass. Success leads to `/login`. Loading is off after any request. |
| LoginPage.LoginForm.constructor | src/pages/Login.tsx:25-30 | The form starts with empty fields, no flags and not loading. |
| LoginPage.LoginForm.SetEmail | src/pages/Login.tsx:141 | The email input replaces the email. |
| LoginPage.LoginForm.SetPassword | src/pages/Login.tsx:159 | The password input replaces the password. |
| LoginPage.LoginForm.Login | src/pages/Login.tsx:36-100 | Each flag is exactly its field's emptiness, and a request is sent exactly when both fields are filled. Token and name are stored, and the dashboard opened, exactly when both the login and the user lookup succeed. Otherwise the session is untouched. Loading is off after any request. |
| Session.SessionStorage.Store | src/pages/Login.tsx:85-86 | A login stores the token and the name. The guard will then find a token exactly when the stored token is non-empty. |
| AdminLoginPage.AdminLoginForm.constructor | src/pages/AdminLoginPage.tsx:28-33 | The form starts with empty fields, no flags and not loading. |
| AdminLoginPage.AdminLoginForm.SetEmail | src/pages/AdminLoginPage.tsx:174 | The email input replaces the email. |
| AdminLoginPage.AdminLoginForm.SetPassword | src/pages/AdminLoginPage.tsx:202 | The password input replaces the password. |
| AdminLoginPage.AdminLoginForm.EmailMessage | src/pages/AdminLoginPage.tsx:186-192 | A message shows exactly while the email is flagged. It is "Email is required." when the email is empty and "No account found with this email." otherwise. |
| AdminLoginPage.AdminLoginForm.PasswordMessage | src/pages/AdminLoginPage.tsx:226-230 | A message shows exactly while the password is flagged. It is "Password is required." when the password is empty and "Incorrect password." otherwise. |
| AdminLoginPage.AdminLoginForm.Login | src/pages/AdminLoginPage.tsx:39-125 | A request is sent exactly when both fields are filled. The email flag is emptiness or a 404 "User not found" refusal. The password flag is emptiness or a 401 "Invalid credentials" refusal. Any other failure flags nothing. Success stores token and name and opens `/admin/dashboard`. Otherwise the session is untouched. Loading is off after any request. |
| AuthGuard.Guard.constructor | src/services/authguard.tsx:6-7 | The guard starts loading and not authenticated. |
| AuthGuard.Guard.CheckSession | src/services/authguard.tsx:9-13 | After the check, loading is off and the guard is authenticated exactly when a non-empty token is stored. |
| AuthGuard.Guard.Render | src/services/authguard.tsx:15-23 | The spinner shows exactly while loading. The protected page shows exactly when loaded and authenticated. Any redirect goes to `/login`. |
| AuthGuard.Mount | src/services/authguard.tsx:5-23 | The first render is the spinner. After the effect the protected page shows exactly when a non-empty token is stored, and otherwise the browser is sent to `/login`. |
| AuthGuard.LoginThenMount | src/services/authguard.tsx:10-11 | After a login stores a non-empty token, the guard admits the user. |
| AdminDashboard.CardData | src/pages/AdminDashboard.tsx:74-107 | There are four cards. The first is "Users", whose number is the count of fetched users. |
| AdminDashboard.CardsDependOnlyOnCount | src/pages/AdminDashboard.tsx:74-107 | Two user lists give the same cards exactly when they have the same length. |
| AdminDashboard.Toggled | src/pages/AdminDashboard.tsx:109-113 | Flipping slot i negates that slot only. The length and every other slot are unchanged. |
| AdminDashboard.ToggleTwice | src/pages/AdminDashboard.tsx:109-113 | Flipping the same slot twice restores the flags. |
| AdminDashboard.TogglesCommute | src/pages/AdminDashboard.tsx:109-113 | Clicks on two cards give the same flags in either order. |
| AdminDashboard.AdminDashboardPage.constructor | src/pages/AdminDashboard.tsx:44-49 | The page starts with no users and four folded cards. |
| AdminDashboard.AdminDashboardPage.FetchUsers | src/pages/AdminDashboard.tsx:54-72 | A success replaces the user list. A failure keeps it. |
| AdminDashboard.AdminDashboardPage.ToggleCard | src/pages/AdminDashboard.tsx:109-113 | The stored flags become the copy with the clicked slot flipped. There are still four. |
| AdminDashboard.AdminDashboardPage.Cards | src/pages/AdminDashboard.tsx:147-179 | Each of the four rendered cards pairs the card's data with its own unfold flag. |
| AdminDashboard.AdminDashboardPage.Logout | src/pages/AdminDashboard.tsx:135 | The logout icon opens `/admin/login`. |
| AdminDashboard.AdminDashboardPage.OpenUserTransactions | src/pages/AdminDashboard.tsx:185 | The button opens `/admin/transactions`. |
| AdminDashboard.AdminDashboardPage.OpenUserTasks | src/pages/AdminDashboard.tsx:201 | The button opens `/admin/tasks`. |
| AdminUsers.FindByEmail | src/pages/userTransactions.tsx:56 | The lookup finds nothing exactly when no user has the email. Otherwise it returns the user at the first position holding that email. |
| AdminUsers.UserRoute | src/pages/userTransactions.tsx:83-85 | A user row's route is the prefix followed by the email, and the email is recovered as the part after the prefix. |
| AdminUsers.UserRouteInjective | src/pages/usertasks.tsx:87-89 | Different emails lead to different routes. |
| UserTransactions.UserTransactionsPage.constructor | src/pages/userTransactions.tsx:35-40 | The page starts with no users, no transactions and no chosen user. |
| UserTransactions.UserTransactionsPage.Load | src/pages/userTransactions.tsx:45-81 | Each run of the effect takes the current route parameter. A successful user fetch replaces the users. When the parameter is set, it also picks the first user with that email, or none. The transactions request is made exactly when the parameter is set, and its success replaces the transactions. The previous choice stays unless the users fetch succeeds for a set parameter, and the previous transactions stay unless their own request is made and succeeds, so after a failed users fetch the previous user can head the new parameter's transactions. After a successful user fetch for a set parameter, a chosen user is a listed user with that email; a failed fetch with an unchanged parameter keeps that property. |
| UserTransactions.UserTransactionsPage.View | src/pages/userTransactions.tsx:115-167 | The user table shows exactly when no user is chosen. The detail shows the loaded transactions and, while the choice is consistent, a listed user with the current parameter's email. |
| UserTransactions.UserTransactionsPage.UserClick | src/pages/userTransactions.tsx:83-85 | A row opens `/admin/transactions/` followed by that user's email. |
| UserTasks.UserTasksPage.constructor | src/pages/usertasks.tsx:38-43 | The page starts with no users, no tasks and no chosen user. |
| UserTasks.UserTasksPage.Load | src/pages/usertasks.tsx:49-85 | Each run of the effect takes the current route parameter. A successful user fetch replaces the users. When the parameter is set, it also picks the first user with that email, or none. The tasks request is made exactly when the parameter is set, and its success replaces the tasks. The previous choice stays unless the users fetch succeeds for a set parameter, and the previous tasks stay unless their own request is made and succeeds, so after a failed users fetch the previous user can head the new parameter's tasks. After a successful user fetch for a set parameter, a chosen user is a listed user with that email; a failed fetch with an unchanged parameter keeps that property. |
| UserTasks.UserTasksPage.View | src/pages/usertasks.tsx:119-171 | The user table shows exactly when no user is chosen. The detail shows the loaded tasks and, while the choice is consistent, a listed user with the current parameter's email. |
| UserTasks.UserTasksPage.UserClick | src/pages/usertasks.tsx:87-89 | A row opens `/admin/tasks/` followed by that user's email. |

## Left out

- Toasts, drawer and modal open flags, password visibility toggles, media queries and all styling: presentation only.
- Network requests: each is a `Reply` parameter. URLs, headers and the bearer text (which is "Bearer null" when no token is stored) are not modelled.
- `Number.parseFloat` on amounts: amounts are whole cents, so NaN from a malformed amount and floating-point rounding are not modelled. The draft amount stays text and is only tested for emptiness, as in the code.
- JavaScript `Date` parsing, `getTime` and `toDateString`: dates are day ordinals. Time zones and invalid dates are not modelled.
- Dashboard.DashboardPage.FetchTransactions: compares dates as day ordinals. An unparseable date, which makes the comparator return NaN, is not modelled.
- Overlapping asynchronous handlers, such as an add whose closure holds an older list: each handler is one atomic step.
- The toast texts built from `error.response.data.message` in the login and task pages: messages only, with no effect on state.
- The registration password hint: a fixed text shown while the password is flagged.
- The admin user table rendering, the back button (`navigate(-1)`) and the drawer open/close handlers of the task manager: navigation and presentation.
- The routing table: `src/App.tsx` is not part of this model, so whether a navigation target is a registered route is not checked.
- Session storage keys other than "auth-token" and "username": no page in the model reads them.
- The task status is one of the three values the selects offer, while the client types it as any string. A server status outside those three cannot be represented; no contract depends on it, since a status change overwrites it.
