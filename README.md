# AgriKit session model

AgriKit is a small demo web app for an agriculture IoT product. Its single script
`main.py` is re-run on every user interaction. Between reruns it keeps a
per-session store with `logged_in`, `username`, `cart` and `current_page`. Each rerun does
three things in order. The sidebar buttons may write `current_page`. A router then runs the
one page handler named by `current_page`. That handler may read a form submit and update
the store.

The model is in five modules:

- `Pages` (pages.dfy) holds the eight page identifiers and the router (`Route`). The
  router maps a stored string to the page it dispatches to. A string that matches no
  branch maps to `None`, because the router renders nothing for it.
- `Forms` (forms.dfy) holds the Login and Create Account validators. Each returns an
  outcome enum in place of the message strings.
- `SensorDashboard` (dashboard.dfy) holds the login gate and the soil-moisture irrigation rule.
  The telemetry readings are a parameter.
- `YieldPrediction` (prediction.dfy) holds the crop-yield formula over `real`, the crop
  factor table and the slider ranges.
- `Session` (session.dfy) holds the state machine. `SessionState`, `Next` and `Run` are
  the specification: one event per rerun, applied to the store. The class
  `Session.SessionStore` is the store that the handlers update in place. `NavigateTo` and
  `LoginSubmit` state each field's new value, `Handle` is tied to `Next`, and `Render` is
  tied to `ScreenFor`. The lemmas prove the invariants:
  the page is always routed, login is monotone, login is the only way in, and the cart is
  never touched.

A form submit takes effect only while its page is shown. The Login and Create Account
buttons are drawn inside their page handlers, so the router must have picked that page.
Likewise the sidebar draws the Login and Create Account buttons only while logged out.
A click on either one while logged in is therefore modelled as changing nothing.

Another variant of the app offers Store and Cart pages. This `main.py` routes to About Us,
Contact Us and About Product instead, and has no Store or Cart handler, so the model has
none either.

## Model

| member | source | states |
|---|---|---|
| `Pages.Route` | main.py:199-214 | a routed identifier is exactly the identifier of the page returned; every page identifier is routed; anything else renders nothing |
| `Pages.Id` | main.py:39-55 | each of the eight identifiers the sidebar writes is non-empty; `Pages.RouteInvertsId` and `Pages.IdInjective` are its partners |
| `Pages.RouteInvertsId` | main.py:199-214 | each of the eight identifiers the sidebar writes is dispatched to its own page |
| `Pages.IdInjective` | main.py:199-214 | distinct pages have distinct identifiers, so a stored identifier names exactly one page |
| `Forms.CheckLogin` | main.py:63-70 | a Login submit is accepted exactly when both username and password are non-empty |
| `Forms.CheckNewAccount` | main.py:79-85 | "required" exactly when username or password is empty; "mismatch" exactly when both are filled and password differs from the confirmation; success otherwise |
| `Forms.RequiredBeforeMismatch` | main.py:80-83 | with an empty field the outcome does not depend on the confirmation, so "required" wins over a mismatch |
| `Forms.MismatchIgnoresUsername` | main.py:80-85 | once both fields are filled, the username has no influence on the outcome |
| `Forms.CreatedImpliesLoginAccepted` | main.py:63-85 | every pair Create Account accepts is accepted by Login, and every pair Login accepts is accepted by Create Account with a matching confirmation |
| `SensorDashboard.IrrigationFor` | main.py:121-124 | irrigation is activated exactly when soil moisture is below 30, otherwise standby |
| `SensorDashboard.Show` | main.py:102-124 | the login warning alone exactly when logged out; when logged in, the readings unchanged with irrigation on iff soil moisture is below 30 |
| `SensorDashboard.LoggedOutIgnoresReadings` | main.py:103-105 | logged out, the dashboard output is the same warning for any readings |
| `SensorDashboard.IrrigationMonotone` | main.py:121-124 | a drier soil never gets less irrigation than a wetter one |
| `SensorDashboard.BothDecisionsInRange` | main.py:111-124 | both irrigation decisions occur for readings inside the ranges the app draws from |
| `YieldPrediction.CropFactor` | main.py:142-147 | every crop factor lies between 0.9 and 1.2 |
| `YieldPrediction.BaseYield` | main.py:136-148 | within the slider ranges the weighted sum before the crop factor lies between 0 and 8.5 |
| `YieldPrediction.EstimatedYield` | main.py:136-149 | within the slider ranges the estimate lies between 0 and 8.5 times the crop's factor |
| `YieldPrediction.YieldBounds` | main.py:136-149 | within the slider ranges the estimate lies between 0 and 8.5 * 1.2 |
| `YieldPrediction.YieldBoundsTight` | main.py:136-149 | both bounds are reached: all sliders at 0 give 0, all at their maxima with Corn give 8.5 * 1.2 |
| `YieldPrediction.YieldMonotone` | main.py:136-149 | for one crop, raising any slider never lowers the estimate |
| `YieldPrediction.CropRanking` | main.py:142-149 | for the same sliders, Soybeans <= Wheat <= Rice <= Corn |
| `YieldPrediction.DefaultSliderExamples` | main.py:132-149 | the slider defaults give a base of 4.25, hence 5.1 for Corn and 3.825 for Soybeans |
| `Session.InitialState` | main.py:5-12 | a fresh session is logged out, has an empty username and cart, shows Home, and satisfies the invariant |
| `Session.FeedbackFor` | main.py:63-85 | a rerun reports a login outcome exactly for a Login submit on the Login page, and an account outcome exactly for a Create Account submit on the Create Account page; the outcome carried is the validator's result for the submitted fields |
| `Session.Next` | main.py:39-85 | one rerun never changes the cart and never logs out; the page changes only by a sidebar click, to the clicked page; login state and username change only by a Login submit, which sets logged-in and a non-empty username equal to the submitted one |
| `Session.Run` | main.py:5-85 | over any sequence of reruns the cart is unchanged and a logged-in session stays logged in |
| `Session.NextPreservesInvariant` | main.py:39-85 | no event breaks the invariant: a routed page, logged in iff a username is stored, and an empty cart |
| `Session.NavigateLands` | main.py:39-55 | a sidebar click changes only the current page; it lands on the clicked page, except that Login and Create Account while logged in leave the store unchanged |
| `Session.LoginSubmitEffect` | main.py:63-70 | on the Login page, a submit with both fields filled sets logged-in and the given username whatever the prior state; an empty field, or any other page, leaves the whole store unchanged |
| `Session.NewAccountStoresNothing` | main.py:79-85 | a Create Account submit leaves the store unchanged and so makes no difference to any later event |
| `Session.RunPreservesInvariant` | main.py:5-85 | every store reached from one satisfying the invariant satisfies it, so the stored page is always routed |
| `Session.OnlyLoginLogsIn` | main.py:63-66 | a session that becomes logged in contains a Login submit with both fields filled, made while the Login page was shown |
| `Session.ScreenFor` | main.py:199-214 | the screen shown belongs to exactly the page the router finds for the stored identifier; the dashboard and prediction screens carry the gate's view and the yield estimate |
| `Session.NeverBlank` | main.py:199-214 | from a fresh session, after any events, the router always renders some page |
| `Session.SessionStore.constructor` | main.py:5-12 | the store starts with the defaults: logged out, empty username and cart, page Home |
| `Session.SessionStore.NavigateTo` | main.py:39-55 | the sidebar branches set only the current page: to the clicked page, or unchanged for Login and Create Account while logged in |
| `Session.SessionStore.LoginSubmit` | main.py:63-70 | returns the validator's outcome; on acceptance sets logged-in and the username, otherwise changes nothing; the page and cart are never touched |
| `Session.SessionStore.Handle` | main.py:39-85 | one rerun changes the store exactly as `Next` says and reports `FeedbackFor`'s message, keeping the invariant |
| `Session.SessionStore.Render` | main.py:199-214 | the if/elif chain on the stored string yields the screen `ScreenFor` gives; it writes nothing, and never renders blank for a valid store |

## Left out

- Streamlit rendering (titles, markdown, metrics, columns, page configuration, the CSS block) is left out. It is presentation by a library that is not part of this model.
- The static pages Home, About Us, Contact Us and About Product are modelled as constant screens. Their text is not modelled.
- The random telemetry draws are not modelled because they are nondeterministic. The readings are a parameter of `SensorDashboard.Show` and `Session.SessionStore.Render`, and `SensorDashboard.InSensorRange` records the ranges they are drawn from.
- Floating-point rounding and the two-decimal display are left out. The yield is computed over `real`, and no bit-exact float result is claimed.
- The cart has no behaviour in `main.py` beyond its initialisation. The model only proves that it stays empty. Store and checkout handlers are not part of this model.
- Message strings are replaced by outcome enums (`Forms.LoginOutcome`, `Forms.AccountOutcome`, `Session.Feedback`).
- Streamlit's rerun and widget-state mechanics are reduced to one event per rerun. The per-key "initialise if missing" checks are reduced to the constructor, because the keys exist after the first rerun and later checks write nothing. A store with only some keys present is not modelled.
