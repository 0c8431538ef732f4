# Wifiwala screen logic in Dafny

Wifiwala is a React front end for an internet-plan marketplace. This project models the logic
its screens run between rendering: filtering and sorting plan lists, sanitising and validating
the sign-up and sign-in forms, and decoding plan records from the server. It also models the
small state machines behind the session, the port-change request, the offer carousel and the
complaint form, and the path tests that decide which frame a page gets.

Each screen is one module.
- Pure helpers become functions.
- Component state becomes a class whose fields are the `useState` variables.
- Each handler becomes a method with a `modifies` clause.
- An `async` handler is split at its `await` points into a method that prepares the request
  and a method that takes the reply.

Shared modules hold what the screens borrow from JavaScript:
- `JsValues`: values parsed from JSON, truthiness, `||`, `String(v)`, `join`, and property
  reads that throw on `null`/`undefined` with V8's message.
- `Text`: `trim`, `toLowerCase`, `includes`, `startsWith`, `replace` with a string pattern,
  the `\D` digit filter and `parseInt`.
- `Seqs`: `filter` and the stable `sort`.
- `Http`: what a `fetch` can hand back.

`JSON.parse` and `JSON.stringify` are parameters. The model does not define them.

## Model

| member | source | states |
|---|---|---|
| Seqs.Filter | src/pages/User/Plans.jsx:92-98 | `filter` returns at most as many elements as it is given, each satisfying the predicate |
| Seqs.FilterMembers | src/pages/User/Plans.jsx:92-98 | every element that satisfies the predicate is kept, and nothing outside the input appears |
| Seqs.FilterIsSubsequence | src/pages/User/Table.jsx:24-32 | `filter` keeps the input's order: its result is a subsequence of the input |
| Seqs.FilterCount | src/pages/User/Plans.jsx:92-98 | `filter` keeps every copy of an element that satisfies the predicate and no copy of one that does not |
| Seqs.FilterAppend | src/pages/User/Plans.jsx:92-98 | filtering distributes over concatenation |
| Seqs.FilterAll | src/pages/User/Table.jsx:25 | a predicate true of every element returns the input unchanged |
| Seqs.FilterNone | src/pages/User/Table.jsx:30 | a predicate true of no element returns the empty list |
| Seqs.SubsequencePrefix | src/Auth/Signup.jsx:20 | a prefix of a subsequence is a subsequence (`slice(0, 10)` after the digit filter) |
| Seqs.Insert | src/pages/User/Plans.jsx:99-107 | one insertion step of the sort grows the list by exactly one |
| Seqs.InsertSorted | src/pages/User/Plans.jsx:99-107 | inserting into a sorted list keeps it sorted and adds exactly the inserted element |
| Seqs.SortBy | src/pages/User/Plans.jsx:99-107 | the sort's result is ordered by the comparator's key and is a permutation of its input |
| Seqs.InsertStable | src/pages/User/Plans.jsx:99-107 | an inserted element goes after every element already there with the same key |
| Seqs.SortByStable | src/pages/User/Plans.jsx:99-107 | the sort is stable: elements with equal keys keep their input order |
| Seqs.SortBySorted | src/pages/User/Plans.jsx:99-107 | sorting a list already in key order changes nothing |
| Text.DigitsOnly | src/Auth/Signup.jsx:20 | `replace(/\D/g, "")` is no longer than its input and holds only digits |
| Text.DigitsOnlyOfDigits | src/Auth/Signup.jsx:20 | the digit filter leaves a string of digits unchanged |
| Text.DigitsOnlyKeepsDigits | src/Auth/Signin.jsx:16 | the digit filter keeps every digit, in the typed order, each as many times as it was typed |
| Text.TrimStart | src/Auth/Signup.jsx:28 | `trimStart` removes exactly the leading white space: a suffix, with white space before it and none at its head |
| Text.TrimEnd | src/Auth/Signup.jsx:28 | `trimEnd` removes exactly the trailing white space |
| Text.TrimEmpty | src/Auth/Signup.jsx:28-49 | `!s.trim()` holds exactly of strings that are all white space |
| Text.ToLower | src/pages/User/Plans.jsx:95-97 | `toLowerCase` keeps the length |
| Text.ToLowerIdempotent | src/pages/User/Table.jsx:28 | lower-casing twice is lower-casing once |
| Text.ToLowerHasNoCapitals | src/pages/User/Table.jsx:113 | a lower-cased choice holds no capital letter |
| Text.ToLowerAppend | src/pages/User/Table.jsx:113 | lower-casing distributes over concatenation |
| Text.IndexOf | src/pages/User/Table.jsx:30 | `indexOf` finds the first occurrence, or none when there is none |
| Text.IncludesIff | src/pages/User/Plans.jsx:95-97 | `includes` holds exactly when the text occurs contiguously |
| Text.IncludesEmpty | src/pages/User/Plans.jsx:95-97 | every string includes the empty search |
| Text.ReplaceFirst | src/pages/User/Table.jsx:30 | `replace` with a string pattern leaves the text unchanged when the pattern is absent; otherwise the result is the text before the first occurrence, the replacement, and the text after that occurrence |
| Text.DigitValue | src/pages/User/Plans.jsx:83 | a character's digit value is below ten exactly for decimal digits |
| Text.DigitRun | src/pages/User/Plans.jsx:83 | `parseInt` reads the longest run of digits at the head of the text |
| Text.ParseIntLeadingDigits | src/pages/User/Plans.jsx:81-84 | `parseInt` of a text that starts with decimal digits is the number those digits denote, whatever follows ("100 Mbps" gives 100) |
| JsValues.OrDefault | src/pages/User/VipDetails.jsx:96 | `a \|\| b` keeps a truthy `a` and is otherwise `b` |
| JsValues.DigitChar | src/pages/User/VipDetails.jsx:22 | each digit value below ten has a digit character that reads back to it |
| JsValues.NatToString | src/pages/User/VipDetails.jsx:22 | a number's decimal numeral is non-empty and made only of digits |
| JsValues.NatToStringValue | src/pages/User/VipDetails.jsx:22 | the numeral of n reads back as n when its digits are read in base ten |
| JsValues.JoinStrings | src/pages/User/VipPlan.jsx:71 | `join` puts the separator between consecutive pieces |
| JsValues.Prop | src/pages/User/VipPlan.jsx:57 | reading a property throws exactly on `null` and `undefined`, and otherwise yields the own property or `undefined` |
| Plans.FilterPlans | src/pages/User/Plans.jsx:92-98 | every listed plan matches the search; with a company chosen, its company name equals the choice exactly |
| Plans.FilterPlansComplete | src/pages/User/Plans.jsx:92-98 | the filter is complete (every matching plan is listed, as many times as it occurs) and keeps catalogue order |
| Plans.FilterAllEmptySearch | src/pages/User/Plans.jsx:92-98 | company "All" with an empty search lists every plan |
| Plans.CompanyMatchIsCaseSensitive | src/pages/User/Plans.jsx:94 | a company choice other than "All" that matches no name exactly (a case variant, say) lists nothing, whatever the search |
| Plans.VisiblePlans | src/pages/User/Plans.jsx:92-107 | the list is a permutation of the filtered plans: by ascending price, descending speed or descending duration, with ties in input order, and unsorted for any other key |
| Plans.CatalogueSortable | src/pages/User/Plans.jsx:23-84 | every speed and duration of the catalogue parses, so the sorts never compare `NaN` |
| Plans.CatalogueFilterSortable | src/pages/User/Plans.jsx:92-107 | whatever company and search are chosen, every sort key of the filtered catalogue parses, so the list screen always meets the sort's precondition |
| Table.FilteredPlans | src/pages/User/Table.jsx:24-32 | "all" lists every plan; the company tab keeps companies equal ignoring case; the speed tab keeps speeds equal to the choice with " Mbps" removed |
| Table.FilteredPlansExact | src/pages/User/Table.jsx:24-32 | the table lists exactly the kept plans, as a subsequence of the plans |
| Table.SpeedChoiceShowsNothing | src/pages/User/Table.jsx:30 | as written, every speed option chosen from the dropdown lists no plan |
| Table.FilteredPlansIntended | src/pages/User/Table.jsx:24-32 | the corrected filter agrees with the original on the company tab and strips " mbps" on the speed tab |
| Table.SpeedChoiceIntended | src/pages/User/Table.jsx:113 | with the correction, choosing "d Mbps" lists exactly the plans of speed d, in order |
| Table.PlansTable.constructor | src/pages/User/Table.jsx:5-7 | the table starts on the company tab with "all" chosen and the dropdown closed, listing every plan under both the filter as written and the corrected one |
| Table.PlansTable.SelectTab | src/pages/User/Table.jsx:57-75 | switching tab resets the choice to "all", so every plan is listed, as written and corrected |
| Table.PlansTable.ToggleDropdown | src/pages/User/Table.jsx:94 | the dropdown button flips the dropdown, changes nothing else and keeps the stored choice one the tab offers |
| Table.PlansTable.ChooseFilter | src/pages/User/Table.jsx:113-114 | an option stores its lower-cased value and closes the dropdown; "All" lists every plan; as written, any other speed option lists no plan |
| MobileNumber.Sanitise | src/Auth/Signup.jsx:20 | the stored mobile holds only digits and at most ten of them |
| MobileNumber.SanitiseKeepsFirstDigits | src/Auth/Signup.jsx:20 | the stored mobile is the first ten digits typed, or all of them when fewer, in typed order |
| MobileNumber.SanitiseIdempotent | src/Auth/Signin.jsx:16 | sanitising a stored mobile again leaves it unchanged |
| Signup.With | src/Auth/Signup.jsx:21-23 | a change replaces only the named field |
| Signup.BlankIff | src/Auth/Signup.jsx:28 | a field counts as missing exactly when it holds only white space |
| Signup.ValidIff | src/Auth/Signup.jsx:27-53 | the form passes exactly when all five fields have a visible character and the mobile has ten characters; there is no password-length or email-format rule |
| Signup.ErrorOrder | src/Auth/Signup.jsx:27-52 | the reported check is the first failure in the order name, mobile present, mobile length, email, address, password |
| Signup.DigitMobileValid | src/Auth/Signup.jsx:32-39 | for a sanitised mobile the two mobile checks reduce to "ten digits" |
| Signup.SignupForm.constructor | src/Auth/Signup.jsx:6-14 | the form starts empty, with no error and not loading |
| Signup.SignupForm.HandleChange | src/Auth/Signup.jsx:17-25 | the mobile is stored sanitised, other fields verbatim; only the named field changes |
| Signup.SignupForm.ValidateForm | src/Auth/Signup.jsx:27-53 | passes exactly when no check fails, which for a sanitised form is: all five fields visible and ten digits of mobile; otherwise the error is the first failing check's message |
| Signup.SignupForm.HandleSignUp | src/Auth/Signup.jsx:55-59 | the error is cleared first; loading is set and the form sent only when validation passes |
| Signup.SignupForm.FinishSignUp | src/Auth/Signup.jsx:60-80 | a truthy `success` moves to sign-in; a falsy one shows the server message or "Signup failed"; a throw shows "Server error. Please try again."; loading ends |
| Signin.ValidIff | src/Auth/Signin.jsx:23-41 | the form passes exactly when the mobile has a visible character and ten characters, and the password at least six |
| Signin.DigitMobileValid | src/Auth/Signin.jsx:24-40 | for a sanitised mobile it passes exactly when the mobile has ten digits and the password six characters |
| Signin.ShortPassword | src/Auth/Signin.jsx:36-38 | any password of one to five characters fails the same way, whatever its content |
| Signin.SpacesPassword | src/Auth/Signin.jsx:32-36 | the password is not trimmed: six spaces pass |
| Signin.SigninForm.constructor | src/Auth/Signin.jsx:5-10 | the form starts empty, with no error and not loading |
| Signin.SigninForm.HandleChange | src/Auth/Signin.jsx:13-21 | the mobile is stored sanitised, the password verbatim |
| Signin.SigninForm.ValidateForm | src/Auth/Signin.jsx:23-41 | checks in the order mobile present, mobile length, password present, password length, stopping at the first failure; for a sanitised form it passes exactly when the mobile has ten digits and the password six characters |
| Signin.SigninForm.HandleSignIn | src/Auth/Signin.jsx:43-48 | the error is cleared, and loading is set only when validation passes |
| Signin.SigninForm.TimerElapsed | src/Auth/Signin.jsx:49-52 | the timer ends loading |
| VipPlan.ParseJsonField | src/pages/User/VipPlan.jsx:40-51 | an array is kept; a falsy field, a field that is neither array nor string, and a string that fails to parse give `[]`; a non-empty string that parses gives the parsed value |
| VipPlan.LengthPositive | src/pages/User/VipPlan.jsx:70-75 | `length > 0` throws exactly on `null`/`undefined` and for an array compares its length |
| VipPlan.TruthyFields | src/pages/User/VipPlan.jsx:57-66 | at most three scalar lines exist |
| VipPlan.BuildFeatures | src/pages/User/VipPlan.jsx:54-80 | reading a `null` plan throws; otherwise the lines are speed, data policy, validity, one OTT line, then the benefits, and building fails exactly when the OTT or benefit step throws |
| VipPlan.PushOtt | src/pages/User/VipPlan.jsx:69-72 | the OTT step appends the OTT line when the platform list is non-empty, and throws where `length` or `join` does |
| VipPlan.PushBenefits | src/pages/User/VipPlan.jsx:74-77 | the benefits step appends the benefits when there are any, and throws where `length` or spreading does |
| VipPlan.FeatureCount | src/pages/User/VipPlan.jsx:54-79 | with array fields, the line count is the truthy scalar fields, plus one with OTT platforms, plus the benefits |
| VipPlan.FalsyFieldAddsNothing | src/pages/User/VipPlan.jsx:57-67 | a falsy field (a speed of 0, say) adds no line |
| VipPlan.ColorGradientPeriod | src/pages/User/VipPlan.jsx:83-93 | colours repeat every six cards, and six consecutive cards get six different colours |
| VipPlan.OnePopular | src/pages/User/VipPlan.jsx:96-98 | exactly one card, the second, is popular when there are at least two |
| VipPlan.VipPlansPage.constructor | src/pages/User/VipPlan.jsx:7-9 | the screen starts loading with an empty list and no error |
| VipPlan.VipPlansPage.BeginFetch | src/pages/User/VipPlan.jsx:15-17 | a fetch, on mounting or from "Try Again", sets loading and keeps the list and the error |
| VipPlan.VipPlansPage.FinishFetch | src/pages/User/VipPlan.jsx:15-33 | a failed request keeps the list and sets the error ("Failed to fetch VIP plans" when not ok); a good body replaces the list and clears the error; loading ends |
| VipDetails.ParseJsonFieldAgrees | src/pages/User/VipDetails.jsx:78-88 | this screen's decoding always yields a list: the list screen's array, or `[]` where that screen lets a non-array through |
| VipDetails.OttDescriptionFirstTwo | src/pages/User/VipDetails.jsx:103-106 | the OTT card names only the first two platforms, and with no platform it gives the generic sentence |
| VipDetails.FixedFeatures | src/pages/User/VipDetails.jsx:93-120 | there are six fixed cards |
| VipDetails.BuildFeatures | src/pages/User/VipDetails.jsx:90-130 | the list is the six fixed cards followed by one card per benefit, in order |
| VipDetails.DisplayDefaults | src/pages/User/VipDetails.jsx:186-209 | each value shown (price, speed, data policy, validity) is the plan's own when truthy, otherwise its default: price '599', speed 0, data 'Unlimited', validity 30 |
| VipDetails.VipDetailsPage.constructor | src/pages/User/VipDetails.jsx:10-12 | the screen starts loading with no plan and no error |
| VipDetails.VipDetailsPage.Open | src/pages/User/VipDetails.jsx:40-45 | without an id the error is "No plan ID provided" and loading ends with no request |
| VipDetails.VipDetailsPage.FinishFetch | src/pages/User/VipDetails.jsx:15-37 | a non-ok reply gives "Failed to fetch plan: " and the status; a body without a truthy `plan_name` gives "Invalid plan data received"; only a good body is stored; loading ends |
| PlanDetails.GetProviderIcon | src/pages/User/PlanDetails.jsx:69-78 | an exact-name lookup over five providers, falling back to the wifi icon |
| PlanDetails.GetProviderOTT | src/pages/User/PlanDetails.jsx:81-90 | an exact-name lookup, falling back to a three-platform list |
| PlanDetails.ProviderLookups | src/pages/User/PlanDetails.jsx:69-90 | the lookups are case-sensitive; every provider gets at least two services; the two tables know the same providers |
| PlanDetails.Record | src/pages/User/PlanDetails.jsx:39-41 | the record is `data.plan` when truthy, else `data`; a falsy record is rejected as empty; a `null` body throws |
| PlanDetails.SpeedDigits | src/pages/User/PlanDetails.jsx:47 | the speed is the digits of the speed text, or "-" without one; a non-string speed throws |
| PlanDetails.ViewFields | src/pages/User/PlanDetails.jsx:44-55 | the id falls back from `plan_id` to `_id`; the speed holds only digits and the original is kept for display; a truthy provider, price, validity or data limit is shown as given (validity as "n days", the provider with its icon and OTT list), otherwise its fallback |
| PlanDetails.PlanDetailsPage.constructor | src/pages/User/PlanDetails.jsx:16-18 | the screen starts loading with no plan and no error |
| PlanDetails.PlanDetailsPage.Open | src/pages/User/PlanDetails.jsx:20-25 | without an id the error is "No plan ID found in URL" and loading ends |
| PlanDetails.PlanDetailsPage.FinishFetch | src/pages/User/PlanDetails.jsx:32-63 | a non-ok reply gives "Plan not found or API request failed"; a body that cannot be mapped gives its error; otherwise the mapped plan is stored; loading ends |
| AuthContext.InitialUser | src/context/AuthContext.jsx:6-9 | the user starts as the stored text parsed, or `null` when the key is absent or empty |
| AuthContext.SigninSurvivesReload | src/context/AuthContext.jsx:6-14 | after a sign-in, a reload restores the same user (for a serialisation that parses back) |
| AuthContext.SignoutSurvivesReload | src/context/AuthContext.jsx:6-19 | after a sign-out, a reload starts signed out |
| AuthContext.AuthProvider.constructor | src/context/AuthContext.jsx:6-9 | the provider starts with the stored user, mirrored in the store |
| AuthContext.AuthProvider.Signin | src/context/AuthContext.jsx:11-14 | the user is set and its text stored under "user"; no other key changes |
| AuthContext.AuthProvider.Signout | src/context/AuthContext.jsx:16-19 | the user becomes `null` and "user" is removed; no other key changes |
| AuthContext.SigninThenSignout | src/context/AuthContext.jsx:6-19 | a sign-in then a sign-out leaves the state a fresh start over the store without "user" would have |
| Portchange.GetProviderIcon | src/pages/User/Portchange.jsx:19-27 | an exact-name lookup over four providers, falling back to the wifi icon |
| Portchange.IconsAgree | src/pages/User/Portchange.jsx:19-27 | this screen and the plan detail screen agree on every provider except ACT and Hathway |
| Portchange.PortManagement.constructor | src/pages/User/Portchange.jsx:16-17 | nothing is selected and the form is hidden |
| Portchange.PortManagement.OpenRequestForm | src/pages/User/Portchange.jsx:98 | "Request Port Change" shows the form |
| Portchange.PortManagement.SelectPort | src/pages/User/Portchange.jsx:120 | a click selects that provider |
| Portchange.PortManagement.SubmitRequest | src/pages/User/Portchange.jsx:29-38 | with no selection, it alerts "Please select a port" and changes nothing; with one, it alerts success naming the provider, hides the form and clears the selection |
| Portchange.PortManagement.Cancel | src/pages/User/Portchange.jsx:166-169 | cancel hides the form and clears the selection |
| Carousel.NextSlide | src/pages/User/Carousel.jsx:36 | the next slide stays in range, advances by one and wraps from the last to the first |
| Carousel.ThreeTicks | src/pages/User/Carousel.jsx:36 | three ticks return to the starting slide |
| Carousel.OfferCarousel.constructor | src/pages/User/Carousel.jsx:5 | the carousel starts at slide 0 |
| Carousel.OfferCarousel.Tick | src/pages/User/Carousel.jsx:35-36 | a tick shows the next slide |
| Carousel.OfferCarousel.SelectDot | src/pages/User/Carousel.jsx:119 | clicking dot i shows slide i |
| Carousel.OfferCarousel.TrackOffset | src/pages/User/Carousel.jsx:53 | the track offset is 100 percent per slide: a whole number of slides, between 0 and 200, naming the current slide |
| Carousel.OfferCarousel.HighlightedDots | src/pages/User/Carousel.jsx:116-121 | exactly one dot is highlighted: the current slide's |
| Complaints.With | src/pages/User/Complaints.jsx:26 | a change replaces only the named field |
| Complaints.UserId | src/pages/User/Complaints.jsx:37-40 | an unreadable stored user gives its error; a stored user with a truthy id gives that id; otherwise the error is "User not logged in" |
| Complaints.UserIdFromSession | src/pages/User/Complaints.jsx:37-43 | after a sign-in the complaint is filed under the signed-in user's id; after a sign-out the user is not logged in |
| Complaints.RejectedOutcome | src/pages/User/Complaints.jsx:63-65 | a non-ok response fails with the server's message, or "Failed to submit complaint" |
| Complaints.ErrorText | src/pages/User/Complaints.jsx:83 | the error shown is the thrown message, or the fixed fallback when that is empty |
| Complaints.HelpComplaintCenter.constructor | src/pages/User/Complaints.jsx:14-23 | the form starts with empty subject and description, category "general" and priority "medium" |
| Complaints.HelpComplaintCenter.HandleChange | src/pages/User/Complaints.jsx:25-28 | only the named field changes and the error is cleared |
| Complaints.HelpComplaintCenter.BeginSubmit | src/pages/User/Complaints.jsx:30-48 | loading starts; without a user id the error is set, loading ends and nothing is sent; otherwise the request is the id plus the four fields, unchanged |
| Complaints.HelpComplaintCenter.FinishSubmit | src/pages/User/Complaints.jsx:61-86 | on success the complaint id is stored and the confirmation shown; on failure the error is set; loading ends on both paths |
| Complaints.HelpComplaintCenter.ResetAfterSuccess | src/pages/User/Complaints.jsx:71-80 | the reset restores the initial form and clears the confirmation and the id |
| AppRoutes.SomePrefix | src/App.jsx:45-51 | `some(startsWith)` holds exactly when the path starts with one of the prefixes |
| AppRoutes.AuthPages | src/App.jsx:37-51 | a page is an auth page exactly when its path starts with "/signin" or "/signup" ("/signinX" included), and auth pages hide the footer |
| AppRoutes.AdminPages | src/App.jsx:40-45 | admin pages hide the footer but are not auth pages |
| AppRoutes.UserPagesShowFooter | src/App.jsx:37-45 | "/" and every "/user/" page show the footer |
| BottomFooter.FindIndex | src/components/BottomFooter.jsx:34-36 | `findIndex` is the first item whose path equals the pathname exactly, or -1 when none does |
| BottomFooter.ActiveIffExactPath | src/components/BottomFooter.jsx:60-84 | an item is active exactly when its path is the pathname; at most one item shows its label; "/user/plans/3" activates none |
| BottomFooter.NavigateActivates | src/components/BottomFooter.jsx:12-29 | navigating to an item's path makes that item active |

## Left out

- Network: every `fetch` is replaced by its outcome, given as a parameter (`Http.Reply`, or the
  parsed body for sign-up). This covers the request URLs and the base URL chosen from the page's
  hostname (src/pages/User/PlanDetails.jsx:27-30).
- JSON: `JSON.parse` and `JSON.stringify` are parameters. Round trips hold only under the stated
  assumption that the stored text parses back to the value.
- Timers: the `setTimeout`/`setInterval` callbacks are explicit steps. These are
  `Signin.SigninForm.TimerElapsed`, `Carousel.OfferCarousel.Tick` and
  `Complaints.HelpComplaintCenter.ResetAfterSuccess`. When they fire is not modelled.
- Browser side effects: `alert`, `navigate`, `console.error`, `window.location` and every piece
  of rendered markup are not modelled. `Portchange.PortManagement.SubmitRequest` returns the
  alert text instead, and `Signup.SignupForm.FinishSignUp` returns whether it navigates.
- Numbers are integers. Floating-point values, `NaN` and `Infinity` are not modelled.
- Plans.VisiblePlans: requires that every key the chosen sort reads parses with `parseInt`. With
  a `NaN` key the comparator is inconsistent and the order is implementation-defined.
- Plans.CatalogueSortable: states only that the catalogue's keys parse, not which numbers they
  give. `Text.ParseIntLeadingDigits` states the value for any such text.
- Text.ToLower: maps only the Basic Latin and Latin-1 capitals.
- Signin.FirstError: lengths count code points, where `password.length` in
  src/Auth/Signin.jsx:36 counts UTF-16 units. A password with characters outside the Basic
  Multilingual Plane can be shorter here than in the browser.
- PlanDetails.GetProviderIcon: property lookups on the icon and OTT tables ignore keys inherited
  from `Object.prototype` (a provider named "constructor", say).
- VipPlan.LengthPositive: for an object, only a numeric or boolean `length` property is
  considered. A `length` given as a string is read as not positive.
- Signup.SignupForm.FinishSignUp: stores `String(message)` where the source stores the raw value
  of a non-string `message`.
- AuthContext.AuthProvider.constructor: a stored user that does not parse makes the source throw
  while mounting. The constructor therefore requires a stored text that parses, following the
  code rather than treating such a user as signed out.
- The password-visibility toggle in the sign-in form, the speed test (randomness and
  floating-point formatting) and the purely presentational screens are not modelled.

## Findings

| source | as written | input that shows it | evidently intended | confidence | as-written member | corrected member |
|---|---|---|---|---|---|---|
| src/pages/User/Table.jsx:30 | choices are stored lower-cased, then the speed tab removes " Mbps" case-sensitively | on the speed tab, choose "100 Mbps": "100 mbps" is stored, nothing is removed, and no plan's speed equals it, so the table is empty | the plans whose speed is 100 (ids 6 and 10) | high; not executed | Table.SpeedChoiceShowsNothing | Table.SpeedChoiceIntended |
