# Policy evaluation app: session handling, evaluation page and server store

This project models the logic of a small policy-evaluation web application. It has a React client and a
Flask server. Users register and log in, submit a policy (objective text and group), get a predicted
outcome with a success probability, save it with the observed outcome, browse and delete their history,
and get a comparable successful policy as a suggestion.

The modelled core is:

- **`fetchWithAuth`** (module `Api`). It merges request headers as a record update: a JSON
  `Content-Type` default, then the caller's headers, then `Authorization: Bearer <token>` when a token is
  stored. It then classifies the outcome of the one `fetch` it makes:
  - a 401 clears `token` from `localStorage`, alerts the user and navigates to `/login`;
  - a transport failure is logged;
  - any other response is returned as it is.
- **`App`** (module `AppShell`). The `user` state kept in step with `localStorage` by `handleLogin` and
  `handleLogout`, and the route table that shows the main page only to a truthy `user`.
- **`MainApp`** (module `MainPage`). A class with the five state fields `objetivo`, `grupo`, `resultado`,
  `historial` and `sugerencia`, and the four handlers `obtenerHistorial`, `eliminarRegistro`,
  `handlePredict` and `guardarResultado`. Each handler is one sequential step. Each response it receives
  is an input of type `FetchOutcome`. The requests it sends are returned, so their URLs, headers and
  bodies can be stated.
- **The server** (modules `Backend` and `SuggestText`). A `Server` class holds the `usuarios` and
  `predicciones` collections as sequences. Its endpoints are `register`, `login`, `save`, `history` and
  `delete_history`. Two endpoints are pure functions or read-only methods: `predict` (field check and
  label) and `suggest` (candidate filter, random pick, explanation text). `SuggestText` gives Python's
  `in`, `str.split(sep)[1]` and `str.strip()` the meaning the explanation relies on.

The browser's mutable parts are a `BrowserEnv` class (module `Browser`):
- `localStorage` is a `map<string, string>`;
- `window.location.href` is a string;
- `alert` and `console.error` are appended to logs.

`window.confirm` is a boolean input. Password hashing, password checking, token issuing, the classifier,
its probability, date formatting and the clock are all inputs: values or functions passed in.

Two details of the header handling are easy to miss:
- A stored token replaces any `Authorization` header the caller supplied (frontend/src/utils/api.js:8).
- Without a token, a caller-supplied `Authorization` is kept by the wrapper. The save request's own
  `Bearer ${token}` header therefore reaches the server as `Bearer null` when no token is stored
  (frontend/src/pages/MainApp.jsx:101).
- The delete request is a plain `fetch`, with no wrapper. Its template literal alone yields
  `Bearer null` when no token is stored (frontend/src/pages/MainApp.jsx:54).

## Model

| member | source | states |
|---|---|---|
| Api.MergeHeaders | frontend/src/utils/api.js:3-9 | Content-Type is the caller's when given, else application/json. A stored (truthy) token gives exactly "Bearer <token>" and overrides the caller's Authorization. With no token, Authorization is present exactly when the caller gave one, unchanged. Every other header is the caller's, and no other key is added. |
| Api.FetchResult | frontend/src/utils/api.js:15-25 | A response is returned exactly when fetch delivered one whose status is not 401, and it is that very response. A 401 or a transport failure returns nothing. |
| Api.FetchEffects | frontend/src/utils/api.js:15-25 | On 401 `token` is removed and every other stored key (`username` included) keeps its value. The location becomes /login and the expiry alert is recorded. A transport failure only logs. Any other status leaves the browser untouched. |
| Api.FetchWithAuth | frontend/src/utils/api.js:2-26 | The request sent is the caller's options with only `headers` replaced by the merged record, for the token read from the store. The result and the new browser state are the two functions above. |
| AppShell.RouteFor | frontend/src/App.jsx:29-38 | Paths match as React Router matches them: ignoring letter case and allowing trailing slashes. A path matching `/` shows the main page exactly when `user` is truthy, otherwise redirects to /login. Paths matching `/login` and `/register` render their pages whatever `user` is. A path matching none of the three matches no route. |
| AppShell.TrailingSlashIgnored | frontend/src/App.jsx:29-38 | For every non-empty path and every user, adding a trailing slash does not change the route. |
| AppShell.LoginRouteIgnoresCase | frontend/src/App.jsx:36-37 | `/Login/` renders the login page and `/REGISTER` the register page. |
| AppShell.Display | frontend/src/App.jsx:30-36 | After following the redirect no screen is a redirect, and `/` without a truthy user ends on the login page. |
| AppShell.App.constructor | frontend/src/App.jsx:10 | `user` starts as the stored `username`, or null when none is stored. |
| AppShell.App.HandleLogin | frontend/src/App.jsx:12-15 | `user` becomes the name, which is stored under `username`. The rest of the store, `token` included, and the other browser state are unchanged. |
| AppShell.App.HandleLogout | frontend/src/App.jsx:17-21 | `user` becomes null, and exactly `token` and `username` are removed from the store. |
| AppShell.LoginThenLogout | frontend/src/tests/App.test.jsx:67-102 | From any store, logging in then out leaves `/` showing the login page, with both session keys gone. |
| MainPage.PredictBody | frontend/src/pages/MainApp.jsx:74-77 | The predict body has exactly the keys `Objetivo principal` and `Grupo`, carrying `objetivo` and `grupo`. |
| MainPage.SuggestBody | frontend/src/pages/MainApp.jsx:87 | The suggest body has exactly the key `Grupo`, carrying `grupo`. |
| MainPage.SaveBody | frontend/src/pages/MainApp.jsx:103-109 | The save body always has the form's objective and group and the chosen real outcome. `Prediccion` and `Probabilidad_exito` are present exactly when the shown result has `prediccion` and `probabilidad_exito`, and then copy them. No other key is present. |
| MainPage.HistoryAfter | frontend/src/pages/MainApp.jsx:37-41 | `historial` is replaced by the body exactly when the response exists, is ok and parses; otherwise it is unchanged. |
| MainPage.MainApp.constructor | frontend/src/pages/MainApp.jsx:11-15 | The five fields start as "", "", null, [] and null. |
| MainPage.MainApp.SetObjetivo | frontend/src/pages/MainApp.jsx:11 | The form's setter changes `objetivo` to the typed text and no other field. |
| MainPage.MainApp.SetGrupo | frontend/src/pages/MainApp.jsx:12 | The form's setter changes `grupo` to the chosen group and no other field. |
| MainPage.MainApp.ObtenerHistorial | frontend/src/pages/MainApp.jsx:36-42 | Sends the history request through the wrapper. Only `historial` changes, as HistoryAfter says. The browser changes as after one wrapper call. |
| MainPage.MainApp.EliminarRegistro | frontend/src/pages/MainApp.jsx:44-64 | Without confirmation nothing is sent and nothing changes. Otherwise it sends DELETE to `/history/<id>` with the page's own bearer header. After an ok response it alerts success and re-fetches the history (and only then). After another status it alerts failure. A rejected fetch changes nothing further. The form fields never change. |
| MainPage.MainApp.HandlePredict | frontend/src/pages/MainApp.jsx:66-92 | `resultado` and `sugerencia` are null unless the matching response parsed, so both are cleared before any request. The predict request is always sent. The suggest request is sent only after a parsed prediction. The form and history are unchanged. |
| MainPage.MainApp.GuardarResultado | frontend/src/pages/MainApp.jsx:94-117 | With no truthy `resultado`: no request and no change. Otherwise it sends the save request (the SaveBody of the current state, through the wrapper) and then the history request. Whatever the responses, `resultado` and `sugerencia` end null, `objetivo` and `grupo` end empty, and `historial` is as HistoryAfter says. |
| SuggestText.FindFrom | backend/app.py:135-138 | Returns the first index at or after the start where the separator occurs, or none when it occurs nowhere from there. |
| SuggestText.Find | backend/app.py:135-138 | An index is found exactly when the separator occurs (Python `in`), and it is the first occurrence. |
| SuggestText.SecondPiece | backend/app.py:136 | `split(sep)[1]` starts right after the first occurrence. It stops at the next occurrence, as no occurrence starts between the two, or at the end of the text. It never contains the separator. |
| SuggestText.StripStart | backend/app.py:136 | The result is a suffix, everything cut is whitespace, and it does not start with whitespace. |
| SuggestText.StripEnd | backend/app.py:136 | The result is a prefix, everything cut is whitespace, and it does not end with whitespace. |
| SuggestText.Strip | backend/app.py:136 | The result is a slice with only whitespace cut on both sides, and it neither starts nor ends with whitespace. |
| SuggestText.Explanation | backend/app.py:133-138 | There is no explanation exactly when the evaluation contains neither "Éxito:" nor "Fracaso:". |
| SuggestText.ExplanationOmitsMarker | backend/app.py:135-138 | The explanation never contains the marker it was cut at. |
| SuggestText.ExplanationAfterSuccess | backend/app.py:135-136 | "Éxito:" followed by a reason without that marker yields the stripped reason. |
| SuggestText.ExplanationAfterFailure | backend/app.py:137-138 | "Fracaso:" followed by a reason naming neither marker yields the stripped reason. "Éxito:" is checked first but cannot occur. |
| SuggestText.ExplanationOfSampleRow | backend/tests/test_app.py:27-31 | The test dataset's "Éxito: Razón 1" yields "Razón 1". |
| Backend.ParseObjectId | backend/app.py:181 | An id text is accepted exactly when it is 24 hexadecimal digits, and it yields a canonical lower-case id. |
| Backend.ParseCanonical | backend/app.py:156 | Parsing the text `str(oid)` of an id gives that id back. |
| Backend.ListedRowIsDeletable | frontend/src/pages/MainApp.jsx:50 | In a table whose ids are canonical and unique, the `_id` text of any row of a user's history, sent back to `/history/<id>` by that user, parses to that record's id. `delete_one` then selects exactly that record. |
| Backend.FindUser | backend/app.py:36 | `find_one` by username: the first user with that username, or none exactly when no user has it. |
| Backend.RecordsOf | backend/app.py:165 | The history query returns exactly the records whose `user_id` is the identity, no more records than the table has. |
| Backend.RecordsOfConcat | backend/app.py:165 | The query over two concatenated tables is the concatenation of the queries. |
| Backend.FindOwned | backend/app.py:180-183 | `delete_one`'s match: the first record with both the id and the caller's `user_id`, or none exactly when no record has both. |
| Backend.RemoveAt | backend/app.py:180 | Removing one record keeps every record before it and shifts every record after it by one. |
| Backend.DeleteIsScopedToOwner | backend/app.py:180-188 | Deleting a record leaves every other user's history unchanged, and removes exactly that record from its owner's. |
| Backend.SaveAppendsToOwnerHistory | backend/app.py:105 | A saved record appears last in its owner's history and in no one else's. |
| Backend.Label | backend/app.py:84 | The label is "Éxito" exactly when the class is 1, and "Fracaso" exactly when it is not. |
| Backend.Predict | backend/app.py:66-86 | Without `Objetivo principal` or `Grupo`: 400 "Faltan campos requeridos". If the model raises on the pair: 500. Otherwise 200 with exactly `prediccion` and `probabilidad_exito`. The prediction is "Éxito" exactly when the class is 1 and "Fracaso" exactly when it is not. The probability is the model's percentage. |
| Backend.Candidates | backend/app.py:118-121 | The candidates are exactly the rows of the requested group whose evaluation mentions "Éxito". A missing group or a missing evaluation matches nothing. |
| Backend.Suggest | backend/app.py:110-153 | Always status 200. With no candidate it answers the "No hay sugerencias" message. Otherwise the suggestion is built from some candidate row: its objective, the requested group, and the explanation of its evaluation. |
| Backend.Server.Register | backend/app.py:31-47 | An existing username: 400 "Usuario ya existe", nothing inserted. A hashing failure: 500, nothing inserted. Otherwise exactly one user record with that username and hash is appended, with 201. Predictions are untouched. The id invariant (canonical, unique ids) is kept. |
| Backend.Server.Login | backend/app.py:51-61 | An unknown user: 401 "Credenciales inválidas", with no password check. If the password check raises (a missing or non-text password): 500. A failing check: 401. Otherwise 200 with the token issued for the first matching user's id, and the username asked for. |
| Backend.Server.Save | backend/app.py:91-106 | With all required keys, appends exactly one record owned by the caller, with `resultado_real` null when absent, and 201. A missing key raises (500) and stores nothing. The id invariant is kept. |
| Backend.Server.History | backend/app.py:161-171 | The rows are the caller's records, in table order, one for one, each with the caller's `user_id`. |
| Backend.Server.DeleteHistory | backend/app.py:175-192 | A malformed id: 500, nothing removed. No record with that id owned by the caller: 404, table unchanged. Otherwise exactly that record is removed, with 200. Users are untouched. The id invariant is kept. |

## Left out

- Async interleaving. Each handler runs to completion as one step. `guardarResultado` and
  `eliminarRegistro` do not await `obtenerHistorial`; the model runs it to completion before the
  setters that follow. The history fetch touches only `historial` and the browser, so the order does
  not change the final state.
- MainPage.MainApp.GuardarResultado: the page's own bearer header uses the token read at the component's
  last render (frontend/src/pages/MainApp.jsx:17, 101). The model reads the store when the handler runs,
  so a token removed without a re-render is not modelled.
- Rendering: the view components, the `Login` page (frontend/src/pages/Login.jsx is not part of this
  model; it is the writer of `token`) and `Register`, whose only logic is show/hide flags and messages.
- `alert`, `console.error` and `window.location.href` are recorded effects. `window.confirm` is an input.
  The `err` object `console.error` prints next to its message is not modelled.
- Header names are compared as exact object keys. `fetch`'s case-insensitive merging of headers such as
  `content-type` and `Content-Type` is not modelled.
- bcrypt, JWT, MongoDB, pandas, joblib and scikit-learn are abstracted:
  - the hash result, the password check, the token issuer, the classifier and the probability are inputs;
  - the JWT check of `@jwt_required` is not modelled: protected endpoints take the caller's identity,
    and the library's own error replies for missing or bad tokens are left out;
  - MongoDB queries are equality on JSON values (see the next line for what this leaves out);
  - the CSV dataset is a sequence of rows.
- Backend.FindUser, Backend.Server.Register, Backend.Server.Login: a `username` that is a JSON object is
  looked up by equality. MongoDB's `find_one` reads such an object as a query operator: for example
  `{"$ne": null}` matches the first stored user. The source then answers 400 on register, and on login it
  issues that user's token when the password matches. The model instead finds no user (201 and 401).
  The operator language of MongoDB is not modelled.
- Backend.Candidates, Backend.Suggest: a `Grupo` that is not text matches no row in the model. pandas
  compares a JSON list with the group column element by element: rows whose position holds an equal item
  match when the lengths agree, and the comparison raises (a 500) when they differ.
- Backend.Suggest: the random `sample(1)` is a nondeterministic choice among the candidates. An empty
  objective cell (NaN) in the dataset is not modelled.
- Floating point: `round(proba * 100, 2)` is an input function returning the percentage.
- Backend.Server.History: the date formatting of `timestamp` is an input function. Records written by
  `save` carry `fecha` and never `timestamp` (backend/app.py:102 versus 169), so their rows have no
  `timestamp`.
- Backend.Server.Register, Backend.Server.Save: the id the database assigns is an input. It is required to
  be canonical and unused, as MongoDB guarantees.
- Backend.Server.DeleteHistory: only a malformed id leads to the 500 reply. Database failures are not modelled.
- Request bodies that are not JSON objects, and Flask's own error pages, are not modelled. An uncaught
  exception is a 500 with a null body.
- `/ping-db` is a connectivity check with no logic. modelo/main.py is the training script.
