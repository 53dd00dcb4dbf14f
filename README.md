# Gym front-end pages: a verified model

This project models the logic of the twelve pages under `src/pages` of a React front-end for a
gym: the trainer's client list, the member, staff and payment ledgers of the gym owner, the
weekly schedule, the sign-in page, the two profile forms, the studio settings, the trainer's
profile and the two dashboards. The pages keep their data in component state. They filter and
sort lists with `Array.prototype.filter` and `sort`, validate forms into error objects, append
users and events to in-memory lists, and refresh dashboard figures on a timer.

The model follows the source's own form.
- Pure computations are Dafny functions with lemmas about them:
  - `useMemo` lists and totals;
  - validators' error maps;
  - number and date text;
  - CSV lines.
- Component state that event handlers change is a class with the page's fields. Each handler is
  a method whose `ensures` gives the new state in terms of the old one.

Shared modules:
- `Strings`: JavaScript white space, `trim`, ASCII `toLowerCase`, `includes`, `split` and `join`
  on one character, and `localeCompare` as lexicographic order.
- `Numbers`: printing a non-negative integer, `parseFloat` and `parseInt` of a digit prefix,
  `toFixed(0)`, and the thousands-separator regular expression.
- `ListView`: `filter`, a stable `sort` by comparator, `filter(...).length` and `reduce` sums.
- `IsoDates`: `YYYY-MM-DD` dates.
- `ErrorMaps`: validators' error objects.
- `FormEvents`: the checkbox lists and `name.split(sep)[k]` keys of the form handlers.
- `DashboardStats`: Peak, Low and Avg, capped counters and `%` text.

## Model

| member | source | states |
|---|---|---|
| Clients.FilteredAndSorted | src/pages/Clients.jsx:21-39 | The list holds exactly the clients whose name or e-mail contains the search term, ignoring case, and whose plan matches unless the filter is `'all'`. Each keeps its multiplicity. The list is ordered by name ascending, or by progress or weekly sessions largest first, as the key says. |
| Clients.KeyOrder | src/pages/Clients.jsx:31-36 | A list sorted by a key's comparator is ordered by that key: names lexicographically, progress and sessions descending. |
| Clients.FilteredIsVisible | src/pages/Clients.jsx:22-29 | The search filter followed by the optional plan filter keeps the same clients as their single conjunction. |
| Clients.FilteredAndSortedIsProject | src/pages/Clients.jsx:21-39 | The page's list is the generic filter-then-sort projection with the page's test and comparator. |
| Clients.UnknownKeyKeepsOrder | src/pages/Clients.jsx:35 | A sort key other than name, progress or sessions returns 0 for every pair, so the filtered clients stay in input order. |
| Clients.EmptySearchShowsAll | src/pages/Clients.jsx:21-39 | An empty search with plan `'all'` shows every client, as a multiset. |
| Clients.ActiveCount | src/pages/Clients.jsx:193 | The footer's active count is at most the number of clients. |
| Clients.ActiveAndOthers | src/pages/Clients.jsx:193 | Active clients plus the others make up the whole list. |
| Clients.MockSearchAll | src/pages/Clients.jsx:10-17 | The empty search keeps the whole mock list. |
| Clients.MockPremium | src/pages/Clients.jsx:10-17 | The Premium clients of the mock list are the first, third and fifth. |
| Clients.SortThreeByProgress | src/pages/Clients.jsx:33 | Three clients with distinct largest progress come out largest first. |
| Clients.MockPremiumByProgress | src/pages/Clients.jsx:21-39 | With no search, plan Premium and sort by progress, the mock list shows Lisa Wong (90), Sarah Johnson (75), Emma Thompson (65). |
| Members.FilteredAndSorted | src/pages/Members.jsx:97-126 | Exactly the members passing the search over name, e-mail and plan and the plan and status filters, with multiplicities, sorted by the key's comparator. |
| Members.SortedByKey | src/pages/Members.jsx:108-123 | Neighbours in the list are in name or plan order ascending, or attendance or weekly sessions descending, as the key says. |
| Members.JoinDateNewestFirst | src/pages/Members.jsx:116-117 | Sorting by join date lists later well-formed dates first. |
| Members.FilterOrderIrrelevant | src/pages/Members.jsx:97-106 | The three tests applied one after another, in either order, keep what the single combined filter keeps. |
| Members.UnknownKeyKeepsOrder | src/pages/Members.jsx:120-121 | An unknown sort key keeps the filtered members in input order. |
| Members.NoMemberTwice | src/pages/Members.jsx:97-126 | A list without repeats is shown without repeats. |
| Members.ActiveCount | src/pages/Members.jsx:301 | The footer's active count is at most the number of members. |
| Members.ActiveCountIsActiveView | src/pages/Members.jsx:301 | The footer's active count equals the length of the list shown for status `'active'` with no search. |
| Members.MockFooter | src/pages/Members.jsx:12-91 | The mock list has six distinct members. |
| Members.MockActiveCount | src/pages/Members.jsx:12-91 | Four of the six mock members are active. |
| Staff.NumberOrZero | src/pages/Staff.jsx:97-100 | The number `parseFloat` reads, or 0 for `NaN`, is never negative. |
| Staff.FilteredAndSorted | src/pages/Staff.jsx:81-106 | Exactly the staff passing the name-or-role search and the role and status filters, with multiplicities, sorted by the key's comparator. Revenue is ranked as written, by `parseFloat` of the text after `$`. |
| Staff.FilteredAndSortedIntended | src/pages/Staff.jsx:81-106 | The corrected view: the same staff, sorted by the corrected comparator. It equals the page's view for every key but revenue. |
| Staff.IntendedRevenueOrder | src/pages/Staff.jsx:99-100 | The corrected revenue view lists the whole amounts in descending order. |
| Staff.SortedByKey | src/pages/Staff.jsx:91-104 | Neighbours in the list are in name order, or sessions, rating or revenue descending, as the key says. Revenue is compared as `parseFloat` reads it after the `$`. |
| Staff.UnknownKeyKeepsOrder | src/pages/Staff.jsx:101-102 | An unknown sort key keeps the filtered staff in input order. |
| Staff.RatingKeyReadsFigure | src/pages/Staff.jsx:97-98 | A rating written as a one-decimal figure followed by a star ranks by that figure. |
| Staff.RevenueKeyReadsAmount | src/pages/Staff.jsx:99-100 | With the comma removed, a revenue printed as `$` and grouped digits ranks by its full amount. |
| Staff.KeysOf900 | src/pages/Staff.jsx:99-100 | `'$900'` reads as 900 both as written and as corrected. |
| Staff.KeysOf2480 | src/pages/Staff.jsx:99-100 | `'$2,480'` reads as 2 as written and as 2480 as corrected. |
| Staff.RevenueAsWrittenMisorders | src/pages/Staff.jsx:99-100 | As written, `'$900'` is ranked above `'$2,480'`. The corrected key ranks them the other way. |
| Staff.RevenueSortMisorders | src/pages/Staff.jsx:99-100 | The page's revenue view lists `'$900'` before `'$2,480'`. The corrected view lists them the other way. |
| Staff.Print900 | src/pages/Staff.jsx:14-75 | 900 prints as `900`. |
| Staff.Print2480 | src/pages/Staff.jsx:14-75 | 2480 prints as `2480` and, as money, as `$2,480`. |
| Staff.WorkingDays | src/pages/Staff.jsx:260 | The count of days with sessions is the length of the week less the days with no session. |
| Staff.WorkingDaysAndRestDays | src/pages/Staff.jsx:260 | Days with sessions and days without make up the week. |
| Staff.ActiveCount | src/pages/Staff.jsx:289 | The footer's active count is at most the number of staff. |
| Staff.ActiveCountIsActiveView | src/pages/Staff.jsx:289 | The footer's active count equals the length of the list shown for status `'active'` with no search. |
| Staff.MockFigures | src/pages/Staff.jsx:14-75 | On the mock list Sarah Johnson works six days and Lisa Wong three. |
| Staff.MockActiveCount | src/pages/Staff.jsx:14-75 | Three of the four mock staff are active. |
| GymPayments.WindowedIsShown | src/pages/GymPayments.jsx:33-48 | The matching filter followed by the date window keeps what the single combined test keeps. |
| GymPayments.FilteredAndSorted | src/pages/GymPayments.jsx:32-65 | Exactly the payments matching name, status and type and inside the date window, with multiplicities, sorted by the key's comparator. |
| GymPayments.SortedByKey | src/pages/GymPayments.jsx:51-62 | Neighbours are in name order ascending, or amount descending, as the key says. |
| GymPayments.DateNewestFirst | src/pages/GymPayments.jsx:57-58 | Sorting by date lists later well-formed dates first. |
| GymPayments.InWeekByDay | src/pages/GymPayments.jsx:42-45 | The week window keeps a well-formed date exactly when it is on or after the window's first day. |
| GymPayments.UnknownKeyKeepsOrder | src/pages/GymPayments.jsx:59-60 | An unknown sort key lists the matching payments in input order. |
| GymPayments.ComputeTotals | src/pages/GymPayments.jsx:68-83 | Net revenue is income minus payouts. Paid income lies between 0 and income. Payouts are non-negative. An empty list totals zero. |
| GymPayments.SumNonNegative | src/pages/GymPayments.jsx:68-83 | A sum of payment amounts is never negative. |
| GymPayments.PaidIncomeBounded | src/pages/GymPayments.jsx:78-80 | Paid member income is part of member income. |
| GymPayments.TotalsIgnoreOrder | src/pages/GymPayments.jsx:68-83 | The totals depend on which payments are listed, not on the sort key. |
| GymPayments.PaidMembers | src/pages/GymPayments.jsx:154 | The Paid Members card shows the number of member payments of the ledger whose status is paid, so at most the member payments. |
| GymPayments.PaidMembersAndUnpaid | src/pages/GymPayments.jsx:154 | The paid member payments the card counts and the unpaid ones make up all member payments. |
| GymPayments.CsvHeaderColumns | src/pages/GymPayments.jsx:87-91 | The header line splits on its commas into the seven column names. |
| GymPayments.CsvFields | src/pages/GymPayments.jsx:92-101 | A payment's line has seven fields: its kind, name, plan or role, `$` amount, formatted date, status and method. |
| GymPayments.QuoteAll | src/pages/GymPayments.jsx:102 | Every field is put between double quotes, one for one. |
| GymPayments.CsvRows | src/pages/GymPayments.jsx:92-104 | One data line per listed payment, in list order. |
| GymPayments.HeaderFree | src/pages/GymPayments.jsx:87-91 | The header holds no line break. |
| GymPayments.JoinFree | src/pages/GymPayments.jsx:91-105 | A join of parts and a separator without a character holds no such character. |
| GymPayments.CsvLines | src/pages/GymPayments.jsx:88-105 | When no field holds a line break, the text splits on LF into the header followed by one line per payment. |
| GymPayments.LinesFree | src/pages/GymPayments.jsx:88-105 | No line of the CSV text holds a line break. |
| GymPayments.QuotedFree | src/pages/GymPayments.jsx:102 | Quoting adds only double quotes. |
| GymPayments.RowFree | src/pages/GymPayments.jsx:92-103 | A character other than a quote or comma that is in no field is in no data line. |
| GymPayments.CsvRowFields | src/pages/GymPayments.jsx:92-103 | When no field holds a comma, a data line splits on its commas into the quoted fields. |
| GymSchedule.ParseDay | src/pages/GymSchedule.jsx:168 | `parseInt` of a day gives the number a cell passed, and `NaN` for the select's empty text. |
| GymSchedule.ColorFor | src/pages/GymSchedule.jsx:149-154 | Sessions get the emerald gradient, classes the blue one, and every other type gray. |
| GymSchedule.MaxId | src/pages/GymSchedule.jsx:145 | The result bounds every id and is 0 or one of the ids. |
| GymSchedule.NextId | src/pages/GymSchedule.jsx:145 | A new id is at least 1 and exceeds every id in use. It is 1 for an empty schedule. |
| GymSchedule.Merge | src/pages/GymSchedule.jsx:138-141 | An edited event takes the form's fields and keeps its colour. |
| GymSchedule.EditById | src/pages/GymSchedule.jsx:138-141 | Events with the selected id are merged with the form. The others stay unchanged and in place. |
| GymSchedule.RemoveId | src/pages/GymSchedule.jsx:161-165 | Exactly the events with other ids remain, each as often as before, in their old order. |
| GymSchedule.RemoveAdded | src/pages/GymSchedule.jsx:143-165 | Deleting the event just added gives the schedule back. |
| GymSchedule.RemoveMissing | src/pages/GymSchedule.jsx:161-165 | Deleting an id no event has changes nothing. |
| GymSchedule.CellEvents | src/pages/GymSchedule.jsx:168 | A cell shows exactly the events whose day parses to its column and whose time is its row. |
| GymSchedule.AddedEventInCell | src/pages/GymSchedule.jsx:143-168 | An event added from a cell appears last in that cell and in no other. |
| GymSchedule.Hours | src/pages/GymSchedule.jsx:63-67 | There are 24 hour labels, label i for hour i. |
| GymSchedule.ReadLabel | src/pages/GymSchedule.jsx:63-67 | A printed clock label reads back as its hour of the day. |
| GymSchedule.HourLabelRoundTrip | src/pages/GymSchedule.jsx:63-67 | Each of the 24 labels reads back as its own index. |
| GymSchedule.HourLabelsDistinct | src/pages/GymSchedule.jsx:63-67 | No two hour labels are alike. |
| GymSchedule.GridRows | src/pages/GymSchedule.jsx:259 | The grid has 16 rows, from `6:00 AM` to `9:00 PM`, row k for hour k + 6. |
| GymSchedule.SetField | src/pages/GymSchedule.jsx:127-130 | An input changes only its own field. The day select stores its text. |
| GymSchedule.Schedule.constructor | src/pages/GymSchedule.jsx:7-60 | The schedule starts with the mock events, an empty form and no modal. |
| GymSchedule.Schedule.OpenAddModal | src/pages/GymSchedule.jsx:105-110 | A blank form on the given day value and hour, in add mode. A grid cell gives its day number, the header button gives empty text for both. The events are unchanged. |
| GymSchedule.Schedule.CloseModal | src/pages/GymSchedule.jsx:407 | The modal's Cancel closes it and changes nothing else. |
| GymSchedule.Schedule.OpenEditModal | src/pages/GymSchedule.jsx:112-125 | The form is filled from the event, in edit mode. The events are unchanged. |
| GymSchedule.Schedule.ChangeField | src/pages/GymSchedule.jsx:127-130 | The named field takes the input's text. |
| GymSchedule.Schedule.SaveEvent | src/pages/GymSchedule.jsx:132-158 | An incomplete form changes nothing. Otherwise edit mode merges the selected id, add mode appends a new event with a fresh id, and the modal closes. |
| GymSchedule.Schedule.DeleteEvent | src/pages/GymSchedule.jsx:161-165 | Every event with the id goes. The modal closes and nothing stays selected. |
| AuthPage.OpenStep | src/pages/AuthPage.jsx:28 | How the open `@` positions of the e-mail pattern change as the scan takes one more character. |
| AuthPage.EmailAtOpen | src/pages/AuthPage.jsx:28 | A match is an open `@`, a `.` at least two places on, and a non-space after the `.`. |
| AuthPage.MatchEmailPattern | src/pages/AuthPage.jsx:28 | A left-to-right scan answers exactly whether `/\S+@\S+\.\S+/` matches somewhere in the text. |
| AuthPage.SignUpErrors | src/pages/AuthPage.jsx:25-33 | Name, e-mail, password and confirmation each have an error exactly when their rule fails: blank name, e-mail not matching, password under 6 characters, passwords differing. |
| AuthPage.LoginErrors | src/pages/AuthPage.jsx:36-42 | Only e-mail and password can fail: e-mail not matching, or an empty password. |
| AuthPage.SignUpValidIff | src/pages/AuthPage.jsx:25-33 | Sign-up passes exactly when all four rules hold. |
| AuthPage.LoginValidIff | src/pages/AuthPage.jsx:36-42 | Login passes exactly when the e-mail matches and a password is given. |
| AuthPage.FindUser | src/pages/AuthPage.jsx:76-78 | A user is found exactly when some registered user has that e-mail and password. It is the first such user. |
| AuthPage.SignUpThenLogIn | src/pages/AuthPage.jsx:51-78 | After signing up with an e-mail and password, logging in with them finds a user. |
| AuthPage.FindUserAppend | src/pages/AuthPage.jsx:76-78 | Appending users keeps every earlier login result: the first match wins. |
| AuthPage.Auth.constructor | src/pages/AuthPage.jsx:4-16 | The page starts in login mode with an empty form, no errors and no users. |
| AuthPage.Auth.ChangeField | src/pages/AuthPage.jsx:19-22 | The named field takes the text. Other names change nothing. |
| AuthPage.Auth.ValidateSignUp | src/pages/AuthPage.jsx:25-33 | The error map is the sign-up error map of the form. The result says whether it is empty. |
| AuthPage.Auth.ValidateLogin | src/pages/AuthPage.jsx:36-42 | The error map is the login error map of the form. The result says whether it is empty. |
| AuthPage.Auth.SignUp | src/pages/AuthPage.jsx:45-67 | On valid input one user is appended, the page switches to login, the name and passwords are cleared and so are the errors. Otherwise only the errors are set. |
| AuthPage.Auth.LogIn | src/pages/AuthPage.jsx:70-90 | On valid input the first matching user is authenticated and the role screen opens. Otherwise the login error is set, or only the errors are set. |
| AuthPage.Auth.ShowLoginTab | src/pages/AuthPage.jsx:110-114 | Login mode, with the login error cleared. |
| AuthPage.Auth.ShowSignUpTab | src/pages/AuthPage.jsx:123-127 | Sign-up mode, with the errors cleared. |
| AuthPage.Auth.FollowLink | src/pages/AuthPage.jsx:248 | The link under a form switches the mode. |
| AuthPage.Auth.BackToLogin | src/pages/AuthPage.jsx:174-178 | The role screen closes and login mode returns with no login error. |
| ErrorMaps.AddIf | src/pages/GymProfileForm.jsx:93-102 | One validator rule: the key has an entry exactly when the rule fails or it had one before, a failing rule stores its message, a passing rule changes nothing, and other keys keep their entries and messages. |
| ErrorMaps.EmptyMapSize | src/pages/GymProfileForm.jsx:105 | `Object.keys(errors).length === 0` holds exactly when the map is empty. |
| FormEvents.SegmentAfterDot | src/pages/GymProfileForm.jsx:80-85 | `name.split('.')[1]` of `prefix.key` is the key. |
| FormEvents.Toggle | src/pages/GymProfileForm.jsx:42-49 | After a checkbox change the item is listed exactly when the box is ticked. Other items keep their counts. Ticking appends at the end. |
| FormEvents.ToggleOffKeepsOrder | src/pages/GymProfileForm.jsx:46-47 | Clearing a box leaves a subsequence of the list: the other items keep their order. |
| FormEvents.ToggleOnOff | src/pages/GymProfileForm.jsx:42-49 | For an item not listed, ticking and then clearing its box gives the list back. |
| FormEvents.ToggleOffTwice | src/pages/GymProfileForm.jsx:46-47 | Clearing a box twice is clearing it once. |
| GymProfileForm.ToggleItem | src/pages/GymProfileForm.jsx:51 | The corrected item of a box name is everything after its first `-`. A name without `-` gives `undefined`. |
| GymProfileForm.ToggleItemOfOption | src/pages/GymProfileForm.jsx:327-328 | The corrected reading of `prefix-option` gives the option back. |
| GymProfileForm.ToggleItemAsWrittenIff | src/pages/GymProfileForm.jsx:51 | As written, the box name gives the option back exactly when the option has no `-` of its own. |
| GymProfileForm.ToggleItemAsWrittenCuts | src/pages/GymProfileForm.jsx:51 | As written, the item is the option cut at its own first `-`. |
| GymProfileForm.WiFiStoredAsWi | src/pages/GymProfileForm.jsx:51 | As written, `amenities-Wi-Fi` is stored as `Wi`. |
| GymProfileForm.WiFiNeverTicked | src/pages/GymProfileForm.jsx:327-328 | As written, ticking the Wi-Fi box never makes `includes('Wi-Fi')` true. |
| GymProfileForm.OptionsRoundTrip | src/pages/GymProfileForm.jsx:35-37 | With the corrected reading every facility, amenity and class-type option round-trips through its box name. |
| GymProfileForm.PlanIndex | src/pages/GymProfileForm.jsx:67-69 | A plan index is read only from the canonical decimal text of a number. |
| GymProfileForm.CanonicalDigits | src/pages/GymProfileForm.jsx:67-69 | Digits without a leading zero are the printed form of their value. |
| GymProfileForm.PlanIndexOfDecimal | src/pages/GymProfileForm.jsx:371 | Every index the plan inputs print is read back. |
| GymProfileForm.SetPlanField | src/pages/GymProfileForm.jsx:66-70 | Only the named field of the indexed plan changes. Other plans stay as they are. |
| GymProfileForm.SetField | src/pages/GymProfileForm.jsx:86-88 | Each of the ten text inputs sets exactly its own field to the value. Unknown names change nothing. |
| GymProfileForm.GymErrors | src/pages/GymProfileForm.jsx:91-106 | Each of the eight keys has an error exactly when its rule fails: blank names, a blank or short description, no facility, no photo. |
| GymProfileForm.GymValidIff | src/pages/GymProfileForm.jsx:91-106 | The form passes exactly when all eight rules hold. |
| GymProfileForm.GymErrorsIgnoreOptional | src/pages/GymProfileForm.jsx:91-106 | Fields the validator does not read do not change its verdict. |
| GymProfileForm.GymProfile.constructor | src/pages/GymProfileForm.jsx:4-28 | The form starts with its first values and no errors. |
| GymProfileForm.GymProfile.HandleChange | src/pages/GymProfileForm.jsx:39-89 | The event is routed by name: checkbox lists toggle the item as written, the second `-`-separated part of the box name, a plan input sets one field of one plan, hours and links set one key, photos are replaced, other names set their field. An event naming no plan changes nothing. |
| GymProfileForm.GymProfile.Validate | src/pages/GymProfileForm.jsx:91-106 | The error map is the form's error map. The result says whether it is empty. |
| TrainerProfileForm.SetField | src/pages/TrainerProfileForm.jsx:58-60 | Each of the eight text inputs sets exactly its own field to the value. Days, photo and links stay. |
| TrainerProfileForm.TrainerErrors | src/pages/TrainerProfileForm.jsx:63-76 | Each of the eight keys has an error exactly when its rule fails: blank texts, an unchosen specialty, level or rate, no day ticked. |
| TrainerProfileForm.TrainerValidIff | src/pages/TrainerProfileForm.jsx:63-76 | The form passes exactly when all eight rules hold. |
| TrainerProfileForm.TrainerErrorsIgnoreOptional | src/pages/TrainerProfileForm.jsx:63-76 | Phone, photo and links never change the verdict. |
| TrainerProfileForm.ShortBioPasses | src/pages/TrainerProfileForm.jsx:70 | A one-character bio passes the bio rule, although it is under 50 characters. |
| TrainerProfileForm.TrainerProfile.constructor | src/pages/TrainerProfileForm.jsx:4-16 | The form starts with its first values and no errors. |
| TrainerProfileForm.TrainerProfile.HandleChange | src/pages/TrainerProfileForm.jsx:36-61 | A day box toggles its day. A link, the photo or a text field is set by name. |
| TrainerProfileForm.TrainerProfile.Validate | src/pages/TrainerProfileForm.jsx:63-76 | The error map is the form's error map. The result says whether it is empty. |
| Settings.ApplyEdit | src/pages/Settings.jsx:221-301 | A plan control never changes the plan's id, name or interval. |
| Settings.EditPlans | src/pages/Settings.jsx:221-301 | The plans with the id take the edit. No other plan changes, and the ids stay in place. |
| Settings.FlipTwice | src/pages/Settings.jsx:221-225 | Flipping a plan's switch twice gives the plans back. |
| Settings.BenefitEdit | src/pages/Settings.jsx:278-284 | On the plan shown, only benefit i takes the new text. |
| Settings.ResetPlans | src/pages/Settings.jsx:91-97 | Each plan gets its default price by name and renewal on. Everything else is kept. |
| Settings.ResetKeeps | src/pages/Settings.jsx:91-97 | A reset keeps each plan's switch, description and benefits. |
| Settings.ResetIdempotent | src/pages/Settings.jsx:91-97 | Resetting twice is resetting once. |
| Settings.ResetOfInitial | src/pages/Settings.jsx:19-50 | The first plans the page shows are already at their defaults. |
| Settings.Flip | src/pages/Settings.jsx:343-351 | Exactly one switch flips. The set of switches is unchanged. |
| Settings.FlipFlipTwice | src/pages/Settings.jsx:402-404 | Flipping a switch twice gives the switches back. |
| Settings.SetStudio | src/pages/Settings.jsx:160-196 | A studio text box changes only its own field. |
| Settings.SettingsPage.constructor | src/pages/Settings.jsx:6-72 | The page starts on the general tab with the first studio, plans, switches and integrations. |
| Settings.SettingsPage.SelectTab | src/pages/Settings.jsx:135 | The clicked tab becomes active. |
| Settings.SettingsPage.EditStudio | src/pages/Settings.jsx:160-196 | The studio details take the box's text in its field. |
| Settings.SettingsPage.EditPlan | src/pages/Settings.jsx:221-301 | The plans take the control's edit for that id. |
| Settings.SettingsPage.FlipNotification | src/pages/Settings.jsx:343-351 | Only that channel's notice flips. |
| Settings.SettingsPage.FlipIntegration | src/pages/Settings.jsx:402-404 | Only that integration flips. |
| Settings.SettingsPage.Save | src/pages/Settings.jsx:75-79 | The toast shows. |
| Settings.SettingsPage.Reset | src/pages/Settings.jsx:82-110 | If confirmed, the studio, switches and integrations return to their first values and the plans are reset by name. Otherwise nothing changes. |
| Profile.ParseList | src/pages/Profile.jsx:42-46 | One trimmed, comma-free item per comma-separated piece. |
| Profile.TrimPadded | src/pages/Profile.jsx:42-46 | Each item shown after `, ` trims back to itself. |
| Profile.ListTextSplits | src/pages/Profile.jsx:326 | The list box's text splits on commas into the items, each after the first behind a space. |
| Profile.ParsePadded | src/pages/Profile.jsx:42-46 | Text that splits into the padded items parses back to the items. |
| Profile.ListRoundTrip | src/pages/Profile.jsx:42-46 | A list of trimmed, comma-free items survives being shown and read back. |
| Profile.ClearedListHasOneItem | src/pages/Profile.jsx:42-46 | Clearing a list box gives a list of one empty item, not an empty list. |
| Profile.SetField | src/pages/Profile.jsx:47-49 | Each of the eight text inputs sets exactly its own field to the value. The lists and links stay. |
| Profile.ProfilePage.constructor | src/pages/Profile.jsx:7-24 | The page starts out of edit mode with the first profile. |
| Profile.ProfilePage.Edit | src/pages/Profile.jsx:26-28 | Edit mode turns on. |
| Profile.ProfilePage.Close | src/pages/Profile.jsx:30-32 | Edit mode turns off and every edit is kept. |
| Profile.ProfilePage.Save | src/pages/Profile.jsx:34-38 | Edit mode turns off and the form is kept. |
| Profile.ProfilePage.HandleChange | src/pages/Profile.jsx:40-50 | The two list fields are parsed. Any other field is stored as typed. |
| Profile.ProfilePage.EditInstagram | src/pages/Profile.jsx:347-352 | Only the Instagram link changes. |
| Profile.ProfilePage.EditWebsite | src/pages/Profile.jsx:362-367 | Only the website link changes. |
| Profile.ProfilePage.PhotoLoaded | src/pages/Profile.jsx:52-61 | The preview becomes the loaded data URL. |
| DashboardStats.Peak | src/pages/Dashboard.jsx:203 | `Math.max`: an entry that no entry exceeds. |
| DashboardStats.Low | src/pages/Dashboard.jsx:207 | `Math.min`: an entry that no entry is below. |
| DashboardStats.PeakIsMaximum | src/pages/GymDashboard.jsx:270 | Any entry bounding all the others is the Peak. |
| DashboardStats.LowIsMinimum | src/pages/GymDashboard.jsx:274 | Any entry that no other is below is the Low. |
| DashboardStats.TotalBetween | src/pages/Dashboard.jsx:211 | A week whose entries lie in a range totals within the range times the length. |
| DashboardStats.AvgBetween | src/pages/Dashboard.jsx:203-211 | The Avg shown lies between the Low and the Peak shown. |
| DashboardStats.AvgNearest | src/pages/GymDashboard.jsx:278 | Avg is the whole number nearest to a seventh of the total, halves up. |
| DashboardStats.CappedIncrement | src/pages/Dashboard.jsx:37 | One more, never past the cap. |
| DashboardStats.BumpPercent | src/pages/GymDashboard.jsx:44 | The bumped rate prints `NaN%` exactly when the text has no leading digit. |
| DashboardStats.BumpPercentRoundTrip | src/pages/GymDashboard.jsx:44 | A printed rate is read back and printed one higher, up to the cap. |
| DashboardStats.BadgeIsGreenIff | src/pages/Dashboard.jsx:68 | A badge is green exactly when its text has a `+`. |
| Dashboard.WeeklyPeakAndLow | src/pages/Dashboard.jsx:29 | The trainer's week shows Peak 120 and Low 50. |
| Dashboard.WeeklyTotal | src/pages/Dashboard.jsx:29 | The week's sessions total 570. |
| Dashboard.WeeklyAvg | src/pages/Dashboard.jsx:211 | The week shows Avg 81. |
| Dashboard.CardBadges | src/pages/Dashboard.jsx:55-68 | The first three badges are green and the hours badge red. |
| Dashboard.Print2480 | src/pages/Dashboard.jsx:9-14 | The first revenue prints as `$2,480`. |
| Dashboard.TrainerStatsBoard.constructor | src/pages/Dashboard.jsx:9-14 | The cards start at 48 clients, 24 sessions, `$2,480` and 12 hrs. |
| Dashboard.TrainerStatsBoard.Tick | src/pages/Dashboard.jsx:34-41 | One tick adds a client and a session up to 30, and prints the revenue 25 higher. The revenue text stays a printed amount. |
| GymDashboard.WeeklyPeakAndLow | src/pages/GymDashboard.jsx:34 | The gym's week shows Peak 94 and Low 68. |
| GymDashboard.WeeklyTotal | src/pages/GymDashboard.jsx:34 | The week's occupancy totals 552. |
| GymDashboard.WeeklyAvg | src/pages/GymDashboard.jsx:278 | The week shows Avg 79. |
| GymDashboard.Print18420 | src/pages/GymDashboard.jsx:8-15 | The first revenue prints as `$18,420`. |
| GymDashboard.Print78 | src/pages/GymDashboard.jsx:8-15 | The first occupancy prints as `78%`. |
| GymDashboard.GymStatsBoard.constructor | src/pages/GymDashboard.jsx:8-15 | The cards start at their first figures. |
| GymDashboard.GymStatsBoard.Tick | src/pages/GymDashboard.jsx:40-46 | One tick adds a member and a sign-up, prints the revenue 54 higher and the occupancy one higher up to 95%. Classes and staff stay. |
| Numbers.DigitChar | src/pages/Staff.jsx:97-98 | The digit character of d reads back as d. |
| Numbers.NatToDecimal | src/pages/GymPayments.jsx:97 | A printed number is non-empty digits with no leading zero. |
| Numbers.DecimalRoundTrip | src/pages/GymDashboard.jsx:43 | Reading back a printed number gives the number. |
| Numbers.LeadingDigits | src/pages/Staff.jsx:97-100 | The digit run at the front of a text, ended by a non-digit. |
| Numbers.LeadingDigitsOfDigits | src/pages/Staff.jsx:97-100 | The digit run of digits followed by a non-digit is the digits. |
| Numbers.ParseFloatPrefix | src/pages/Staff.jsx:97-100 | `parseFloat` is `NaN` exactly when no digit, or point and digit, starts the text. Otherwise it is non-negative. |
| Numbers.ParseFloatOfDecimal | src/pages/Dashboard.jsx:38 | `parseFloat` reads back a printed whole number. |
| Numbers.WholePart | src/pages/Staff.jsx:97-98 | A printed number followed by a non-digit: the digit run is the number. |
| Numbers.OneDigit | src/pages/Staff.jsx:97-98 | One digit followed by a non-digit reads as that digit. |
| Numbers.ParseFloatOfTenths | src/pages/Staff.jsx:97-98 | `parseFloat` reads a printed whole number, a point and one digit as that many tenths. |
| Numbers.ParseIntPrefix | src/pages/GymDashboard.jsx:44 | `parseInt` is `NaN` exactly when the text does not start with a digit. |
| Numbers.ParseIntOfDecimal | src/pages/GymDashboard.jsx:44 | `parseInt` reads back a printed number. |
| Numbers.RoundHalfUp | src/pages/Dashboard.jsx:211 | The nearest whole number, halves up. |
| Numbers.RemoveChar | src/pages/Dashboard.jsx:38 | `replace(/,/g, '')` leaves no comma and never lengthens the text. |
| Numbers.RemoveCharConcat | src/pages/Dashboard.jsx:38 | Removing commas from joined texts removes them from each. |
| Numbers.RemoveAbsentChar | src/pages/Dashboard.jsx:38 | Removing an absent character changes nothing. |
| Numbers.RemoveSeparator | src/pages/Dashboard.jsx:38 | Removing commas keeps a comma-free tail whole. |
| Numbers.GroupThousandsUngroups | src/pages/Dashboard.jsx:38-40 | Removing the commas that grouping put in gives the digits back. |
| Numbers.SplitBeforeLast | src/pages/Dashboard.jsx:38-40 | Splitting text whose last piece has no separator ends with that piece. |
| Numbers.GroupThousandsGroups | src/pages/Dashboard.jsx:38-40 | Grouped digits split into a group of one to three digits followed by groups of three. |
| Numbers.MoneyBumpRoundTrip | src/pages/Dashboard.jsx:38-40 | Bumping a printed money figure prints the sum. |
| Strings.TrimStart | src/pages/Profile.jsx:45 | The white space at the front is cut off and nothing more. |
| Strings.TrimEnd | src/pages/Profile.jsx:45 | The white space at the end is cut off and nothing more. |
| Strings.Trim | src/pages/Profile.jsx:45 | `trim` returns a slice of the text with only white space cut off on either side, and no white space left at either end. |
| Strings.TrimEmptyIffAllWhite | src/pages/AuthPage.jsx:27 | `!s.trim()` holds exactly when every character is white space. |
| Strings.TrimOfTrimmed | src/pages/Profile.jsx:45 | Trimming a trimmed text gives it back. |
| Strings.TrimAfterWhite | src/pages/Profile.jsx:45 | A trimmed text with white space in front trims back to itself. |
| Strings.Lower | src/pages/Clients.jsx:23-24 | `toLowerCase` maps each character. The length is unchanged. |
| Strings.Includes | src/pages/Clients.jsx:23-24 | `includes` holds exactly when some position starts a copy of the needle. |
| Strings.OccursShift | src/pages/Clients.jsx:23-24 | An occurrence in the tail is an occurrence one place on. |
| Strings.IncludesEmpty | src/pages/Clients.jsx:23-24 | Every text includes the empty text. |
| Strings.EmptyTermMatches | src/pages/Clients.jsx:23-24 | An empty search term matches every field. |
| Strings.Split | src/pages/Profile.jsx:44 | One piece more than separators, none holding a separator. |
| Strings.SplitNoSep | src/pages/Profile.jsx:44 | Text without the separator splits into itself. |
| Strings.SplitAtSep | src/pages/Profile.jsx:44 | Text split at its first separator. |
| Strings.SplitJoin | src/pages/Profile.jsx:44 | Splitting what `join` built, on a separator no part has, gives the parts back. |
| Strings.PadTail | src/pages/Profile.jsx:326 | Every part after the first gets the pad in front. |
| Strings.JoinPadded | src/pages/Profile.jsx:326 | Joining with `, ` is joining with `,` after padding the later parts. |
| Strings.JoinPrefixFirst | src/pages/Profile.jsx:326 | A pad before a join moves onto its first part. |
| Strings.LexLeTotal | src/pages/Clients.jsx:33 | Any two texts compare one way or the other. |
| Strings.LexLeTransitive | src/pages/Clients.jsx:33 | The name order is transitive. |
| Strings.LexLeAntisymmetric | src/pages/Clients.jsx:33 | Texts ordered both ways are equal. |
| IsoDates.DateDigits | src/pages/Members.jsx:116-117 | A date's eight digits, year first. |
| IsoDates.MonthOf | src/pages/GymPayments.jsx:47 | A month is read exactly from a well-formed date. |
| IsoDates.DecimalConcat | src/pages/Members.jsx:116-117 | The value of digits followed by more digits. |
| IsoDates.DecimalBound | src/pages/Members.jsx:116-117 | k digits are worth less than 10^k. |
| IsoDates.LexLeDigits | src/pages/Members.jsx:116-117 | Among equal-length digit strings, character order is numeric order. |
| IsoDates.LexLeConcat | src/pages/Members.jsx:116-117 | Joined texts compare by their first parts unless those are equal. |
| IsoDates.DashesDropOut | src/pages/Members.jsx:116-117 | Character order on dates is character order on their digits. |
| IsoDates.IsoDateOrder | src/pages/Members.jsx:116-117 | Character order on `YYYY-MM-DD` text is the order of the dates in time. |
| ListView.Filter | src/pages/Clients.jsx:22-29 | `filter` never lengthens the list. |
| ListView.FilterContents | src/pages/Members.jsx:98-106 | `filter` keeps exactly what the test accepts, with its multiplicity. |
| ListView.FilterConcat | src/pages/Members.jsx:98-106 | Filtering joined lists filters each. |
| ListView.SubsequenceIndices | src/pages/Members.jsx:98-106 | A subsequence takes its records from strictly increasing positions of the list. |
| ListView.FilterIsSubsequence | src/pages/Members.jsx:98-106 | `filter` keeps the records in their order. |
| ListView.CountAllBut | src/pages/Staff.jsx:260 | A test rejecting one value counts the list less the copies of that value. |
| ListView.FilterAll | src/pages/Clients.jsx:22-25 | A test accepting everything keeps the list. |
| ListView.FilterFilter | src/pages/Clients.jsx:22-29 | Two filters in a row are one filter on the conjunction, in either order. |
| ListView.FilterSame | src/pages/GymPayments.jsx:33-48 | Tests agreeing on every record keep the same list. |
| ListView.PrecedesTotal | src/pages/Members.jsx:108-123 | Every pair can be put in some order. |
| ListView.PrecedesTransitive | src/pages/Members.jsx:108-123 | The comparators' order is transitive. |
| ListView.Insert | src/pages/Members.jsx:108-123 | Insertion adds exactly the one record. |
| ListView.InsertSorted | src/pages/Members.jsx:108-123 | Insertion into a sorted list stays sorted. |
| ListView.SortBy | src/pages/Members.jsx:108-123 | `sort` returns a sorted permutation. |
| ListView.SortSwapsPair | src/pages/Members.jsx:108-123 | Two records the comparator puts the other way round come out swapped. |
| ListView.SortCons | src/pages/Clients.jsx:31-36 | Sorting a list inserts its first record into the sorted rest. |
| ListView.InsertFront | src/pages/Clients.jsx:31-36 | A record that precedes the head is inserted in front. |
| ListView.InsertPast | src/pages/Clients.jsx:31-36 | A record that cannot precede the head goes past it. |
| ListView.KeepOrderKeeps | src/pages/Members.jsx:120-121 | A comparator that always returns 0 keeps the order. |
| ListView.FilterCons | src/pages/Members.jsx:98-106 | `filter` on a list with a known head. |
| ListView.InsertStable | src/pages/Members.jsx:108-123 | Insertion keeps records tied with one another in input order. |
| ListView.SortStable | src/pages/Members.jsx:108-123 | `sort` is stable: tied records keep their input order. |
| ListView.Project | src/pages/Members.jsx:97-126 | The list pages' filter then sort: exactly the kept records with their multiplicities, in comparator order. |
| ListView.ProjectKeepOrder | src/pages/Members.jsx:120-121 | A comparator of 0 shows the filtered list in input order. |
| ListView.ProjectStable | src/pages/Members.jsx:97-126 | Records the comparator ties appear in input order. |
| ListView.DistinctCountsAtMostOne | src/pages/Members.jsx:12-91 | A list without repeats holds each record at most once. |
| ListView.CountsAtMostOneDistinct | src/pages/Members.jsx:12-91 | A list holding each record at most once has no repeats. |
| ListView.ProjectDistinct | src/pages/Members.jsx:97-126 | A list page built from records without repeats shows no record twice. |
| ListView.Count | src/pages/Members.jsx:301 | `filter(...).length` is at most the length. |
| ListView.CountComplement | src/pages/Staff.jsx:260 | Records counted by a test and by its negation make up the list. |
| ListView.SumConcat | src/pages/GymPayments.jsx:69-71 | A sum over joined lists adds the sums. |
| ListView.RemoveAtMultiset | src/pages/GymPayments.jsx:69-71 | Taking out a record takes one copy out of the multiset. |
| ListView.SumRemoveAt | src/pages/GymPayments.jsx:69-71 | Taking out a record takes its term out of the sum. |
| ListView.FindIndex | src/pages/GymPayments.jsx:69-71 | A permutation holds the first record somewhere. |
| ListView.PermutationTail | src/pages/GymPayments.jsx:69-71 | Two permutations minus a shared record are permutations. |
| ListView.SumPermutation | src/pages/GymPayments.jsx:69-75 | A sum depends only on which records are summed. |
| ListView.FilterPermutation | src/pages/GymPayments.jsx:69-80 | Filtering two orderings of the same records keeps the same records. |
| ListView.SumSortBy | src/pages/GymPayments.jsx:51-83 | Sorting does not change a sum. |
| ListView.SumFilterLe | src/pages/GymPayments.jsx:78-80 | A sum over the records a filter keeps, with non-negative terms, is at most the sum over all. |

## Left out

- Timers: the dashboards' `setInterval` ticks, the sign-up and login `setTimeout` delays and the Settings toast timer. A tick is one method call and a delayed step happens at once.
- Google login (`src/pages/AuthPage.jsx:93-102`): the result of a call into a third-party service.
- The CSV download (`src/pages/GymPayments.jsx:107-113`): `encodeURI`, the `data:` prefix, the link element, and the file name built from today's date. The model stops at the CSV text.
- The clock: "now" for the payment window is a `Clock` parameter holding the current month and the first day of the week window. `formatDate` (`toLocaleDateString`) is a parameter of the CSV writer.
- GymPayments.InMonth: the month is read from the `YYYY-MM-DD` text. The time zone can move `getMonth` of a date at midnight UTC into the month before; this is not modelled.
- Dates that `Date` cannot read: they give `NaN` and compare false in the week window. As sort keys they are `NaN` in the source, which the comparator treats as a tie. The model's date and join-date orders compare such dates by their text instead. The ordering lemmas speak only of well-formed dates.
- Strings.LexLe: `localeCompare` is modelled as lexicographic order on characters, with no locale collation.
- Week navigation, today's highlight and the header dates of the schedule (`src/pages/GymSchedule.jsx:70-103`): date arithmetic on the browser clock.
- GymPayments.Quote: the source puts fields between quotes without doubling inner quotes, and so does the model. The CSV lemmas require fields without line breaks or commas where they state the split.
- Settings: the price box's `Number(value)` is modelled as an integer price chosen by the control.
- Profile.ProfilePage.PhotoLoaded: the `FileReader` is left out; the method takes the data URL it delivers.
- GymProfileForm.SetPlanField: the source writes the new value into the plan object that the previous state shares. The model makes a fresh sequence, so that aliasing is not captured.
- GymProfileForm.SetField, TrainerProfileForm.SetField, Profile.SetField: an input whose name is not a field of the form adds a key in the source. The model ignores it, since the page renders no such input.
- GymProfileForm.SetPlanField: a field name other than `type` or `price` adds that key to the plan in the source. The model leaves the plans unchanged, since the plan inputs are only those two.
- Text lengths: JavaScript's `.length` counts UTF-16 code units, the model counts characters. The password rule (`src/pages/AuthPage.jsx:29`) and the description rule (`src/pages/GymProfileForm.jsx:98`) differ only for characters outside the Basic Multilingual Plane.
- Staff.NumberOrZero: a key `parseFloat` cannot read is `NaN` in the source, and a comparator returning `NaN` acts as a tie whichever the other key. The model ranks such a key as 0, which can place it differently.
- IsoDates.IsIsoDate: only the `YYYY-MM-DD` shape is checked. A month 13 or a day 32 is accepted; `Date` would reject it, and the ordering lemmas treat it as its digits.
- Photo previews (`URL.createObjectURL`) in the two profile forms: the photos are kept by file name.
- The forms' submit handlers: `alert`, `console.log`, navigation and the simulated delays are left out.
- DashboardStats.Peak and DashboardStats.Low require a non-empty week; `Math.max()` of nothing is `-Infinity` and the pages always have seven entries.
- Numbers.ParseIntPrefix, Numbers.ParseFloatPrefix: leading white space, signs and exponents are not modelled, since the pages read only texts they printed or mock figures.
- Staff modal (`src/pages/Staff.jsx:109-117`): opening and closing a detail panel, with no logic beyond the selection.
- Clients.ActiveCount, Members.ActiveCount, Staff.ActiveCount: the own contract only bounds the count. The partner lemmas give the exact relation to the active view and the complement.
- The charts' geometry on both dashboards: bar heights and colours are presentation.
- GymPayments.CsvHeaderColumns: the header is stated as the split of its seven names rather than as one literal text.

## Findings

| source | as written | input that shows it | evidently intended | confidence | as-written member | corrected member |
|---|---|---|---|---|---|---|
| src/pages/GymProfileForm.jsx:51 | The amenity is `name.split('-')[1]`, so an option with its own `-` is cut at it. | The box `amenities-Wi-Fi` stores `Wi`, and `includes('Wi-Fi')` never becomes true, so the box can never be ticked. | The item is everything after the first `-` of the box name. | not executed | GymProfileForm.WiFiNeverTicked | GymProfileForm.OptionsRoundTrip |
| src/pages/Staff.jsx:99-100 | The revenue key is `parseFloat(revenue.slice(1))`, which stops at the thousands comma. | `'$2,480'` reads as 2 and ranks below `'$900'`. | The key is the whole amount with the commas removed. | not executed | Staff.RevenueSortMisorders | Staff.FilteredAndSortedIntended |
