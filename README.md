# Level Up frontend: session, point allocation and point totals

A Dafny model of the logic inside the React client's `App.js` of the Level Up
point competition:

- **Session** (`App`): the signed-in operator `{username, token}`, its copy in
  the browser's `localStorage` slot `user`, the selected tab, the login error
  and the login modal. `login` checks both credentials locally, then calls
  `POST /login`; acceptance installs and persists the session, rejection
  clears both whatever they held. `logout` clears both and returns to the
  dashboard. The main view shows the allocation form only with a session;
  the allocation tab without one shows a fixed log-in message.
- **Allocation** (`LogicCrud`): the draft team, player, activity and points,
  the roster of the chosen team and the status message. Choosing a team
  clears the player and the roster and asks for the new team's roster.
  `-` and `+` move the points by one with no lower bound. Submit checks that
  every id is chosen, then that the points are non-zero, and only then shows
  "Saving..." and sends one `POST /points`; its outcome sets the success or
  error message.
- **Aggregation** (`PlayerDetails`): a player's total is the sum of the
  breakdown's `points`, a missing value counting as 0; a total below zero is
  shown in negative style, the same test the dashboard and team list apply
  to the server's team totals.

Network replies are inputs: `Session.App.Login` takes the outcome of its
awaited `POST /login`; the roster reply (`OnRoster`) and the save outcome
(`OnSaveOutcome`) are separate events, since the code does not await them.
`localStorage` is the single optional field `stored`.

Two guards would be expected of such a form, and the code has neither: a
roster reply for a team that is no longer selected is not dropped, and a
second submit is not blocked while the first is still being saved. The model
follows the code: `OnRoster` accepts any reply (`Allocation.LateRosterIsKept`
shows a late reply for team A filling the options while B is selected, and
A's player then being sent), and `Submit` can be pressed again before the
first save ends (`Allocation.SubmitWhileSaving` sends the same payload twice
with "Saving..." still shown).

Files: `wrappers.dfy` (Option), `aggregation.dfy`, `session.dfy`,
`allocation.dfy`.

## Model

| member | source | states |
|---|---|---|
| `Aggregation.SumPoints` | frontend/src/App.js:336-338 | the accumulating loop returns exactly `Total(rows)`, the sum of the rows' points with a missing value as 0 |
| `Aggregation.TotalAppend` | frontend/src/App.js:337 | the total of two breakdowns laid end to end is the sum of their totals |
| `Aggregation.MissingPointsCountZero` | frontend/src/App.js:337 | a row without `points`, anywhere in the breakdown, leaves the total unchanged |
| `Aggregation.TotalPermutation` | frontend/src/App.js:336-337 | any rearrangement of a breakdown has the same total: the total does not depend on the server's row order |
| `Aggregation.NoLossesPlainStyle` | frontend/src/App.js:364 | a breakdown without negative points has a total of at least 0 and is never shown in negative style |
| `Aggregation.OnlyLossesNegativeStyle` | frontend/src/App.js:364 | a breakdown with no positive points and at least one loss has a negative total and is shown in negative style |
| `Aggregation.PlayerDetails.constructor` | frontend/src/App.js:330-331 | the drill-down starts with an empty breakdown and total 0, which agree |
| `Aggregation.PlayerDetails.OnBreakdown` | frontend/src/App.js:333-339 | the breakdown becomes the reply (empty for an absent body) and the total becomes that breakdown's total, so the two always agree |
| `Aggregation.PlayerDetails.TotalStyle` | frontend/src/App.js:364 | the total line is in negative style exactly when the breakdown's total is below zero |
| `Session.FailureMessage` | frontend/src/App.js:38 | a rejected login shows the server's non-empty reason if there is one, else "Login failed"; the message is never empty, so it is always displayed |
| `Session.MainView` | frontend/src/App.js:67-75 | the allocation form appears exactly on the allocation tab with a session, and receives that session's token; the allocation tab without a session shows the log-in message; the other tabs show their own views |
| `Session.App.constructor` | frontend/src/App.js:12-15 | mount state: dashboard tab, no session, no error, modal closed, storage as the browser kept it |
| `Session.App.Login` | frontend/src/App.js:24-42 | a request is made iff both credentials are non-empty; otherwise only the error changes; acceptance sets and persists `{username, token}` from the reply, clears the error, selects the dashboard and closes the modal; rejection clears the session and its stored copy unconditionally and shows the failure message, so the allocation form is no longer shown |
| `Session.App.Logout` | frontend/src/App.js:44-48 | no session, no stored copy, dashboard tab, whatever held before; error and modal untouched |
| `Session.App.OpenLoginModal` | frontend/src/App.js:50-53 | the modal opens with the error cleared; the session and tab are untouched |
| `Session.App.CloseLoginModal` | frontend/src/App.js:54 | the modal closes; nothing else changes |
| `Session.App.SelectTab` | frontend/src/App.js:121-141 | a navigation button selects its tab and nothing else; the allocation tab's button exists only with a session |
| `Session.FailedLoginEndsPriorSession` | frontend/src/App.js:37-41 | with "alice" signed in, a rejected login as "bob" leaves no session and no stored copy, and shows the server's reason |
| `Allocation.Rejection` | frontend/src/App.js:406-414 | the submit checks let a draft through exactly when every id is chosen and the points are non-zero; a missing id always gives "Complete all fields!", whatever the points; "Points cannot be zero." is given exactly for a complete draft with 0 points |
| `Allocation.LogicCrud.constructor` | frontend/src/App.js:374-381 | the form mounts with no ids, 0 points, no roster and no message |
| `Allocation.LogicCrud.ChangeTeam` | frontend/src/App.js:392-402 | the team becomes the chosen one, the player and roster are cleared, activity, points and message stay; a roster fetch for that team is issued exactly when its id is non-empty |
| `Allocation.LogicCrud.OnRoster` | frontend/src/App.js:398-400 | a roster reply replaces the player options; nothing else changes |
| `Allocation.LogicCrud.ChoosePlayer` | frontend/src/App.js:443-456 | choosing from the enabled player drop-down sets the player and nothing else |
| `Allocation.LogicCrud.ChooseActivity` | frontend/src/App.js:459-464 | choosing an activity sets it and nothing else |
| `Allocation.LogicCrud.Decrement` | frontend/src/App.js:476 | the `-` control lowers the points by exactly one, below zero too |
| `Allocation.LogicCrud.Increment` | frontend/src/App.js:485 | the `+` control raises the points by exactly one |
| `Allocation.LogicCrud.SetPoints` | frontend/src/App.js:479-484 | the points input sets any integer, negative included |
| `Allocation.LogicCrud.Submit` | frontend/src/App.js:404-422 | a request is sent iff the draft is submittable; a rejected draft shows the first failing check's message; a sent one shows "Saving..." and carries the draft's player, activity and non-zero points; team, player, activity and points are never changed |
| `Allocation.LogicCrud.OnSaveOutcome` | frontend/src/App.js:423-424 | success shows "Success! Reflected on dashboard!", failure "Error saving data, try again." |
| `Allocation.NegativeAllocationTwice` | frontend/src/App.js:476 | after choosing team, player and activity and pressing `-` once, submit sends points -1; submitting again after success sends the same payload as a second request |
| `Allocation.SubmitWhileSaving` | frontend/src/App.js:416-424 | two submits with no save outcome between them send the same payload twice, and "Saving..." stays shown: nothing blocks a submit in flight |
| `Allocation.LateRosterIsKept` | frontend/src/App.js:392-402 | after switching from team A to team B, a late reply to A's roster fetch becomes the player options while B stays selected, and a player chosen from it is sent in a `POST /points` |

## Left out

- Rendering is not modelled except for the logic it carries that decides behaviour: the choice of main view (`Session.MainView`), the player drop-down being disabled without a roster and offering only its roster's ids (the requires of `ChoosePlayer`), the allocation tab's button existing only with a session (the requires of `SelectTab`) and the sign test on totals (`StyleOf`). Header imagery, CSS class strings and the login modal's form fields are left out.
- Allocation.LogicCrud.Submit: models the submit handler alone. The browser's validation of the `required` attribute on the three drop-downs is not modelled; it refuses the submit before the handler runs whenever an enabled drop-down is on its "Select" entry (a disabled one is not checked), so in the running form "Complete all fields!" is only reachable while the player drop-down is disabled for want of a roster.
- The trim of the typed username in the login modal is not modelled: `Login` receives the username as passed.
- Session restore at mount parses the stored entry without any checking; it is not modelled, so the constructor starts without a session and leaves the stored slot as it was.
- HTTP and `localStorage` are not modelled as I/O: replies are method parameters, the stored session is one optional field, and the bearer header built from the token is not modelled.
- Order of asynchronous replies: `Session.App.Login` takes its outcome in the same step as the request, so two logins in flight at once (whose replies could interleave with tab changes) are not modelled.
- The points input converts text with `Number(...)`, which can give fractions or NaN; points are modelled as integers.
- The breakdown's `points` from `GET /player/{id}` are taken as JSON integers or absent (`Row.points`). A fractional value would be added as a floating-point number and a numeric string would be concatenated by `+=`; neither is modelled.
- The drill-down's `GET /player/{id}` request itself is not modelled: `PlayerDetails.OnBreakdown` takes its reply.
- The team and activity option lists loaded when the allocation form mounts only feed the drop-downs; they are not modelled, and `ChooseActivity` accepts any id.
- The dashboard, team list and team detail views only fetch and display; their one piece of logic, the `total_points < 0` test on server-supplied team totals, is `Aggregation.StyleOf`.
- The axios interceptor that copies a stored token into request headers is not part of this model.
