# Prediksi kualitas udara — a Dafny model of the decision rules

The system predicts air quality from four weather readings and has three parts:
- a React web client (FE-aja);
- an Express backend with PostgreSQL tables for users, predictions and an activity history;
- a Python ML service.

This project models that system's deterministic rules and proves what they promise. It covers:

- **the client's mock scorer and input gate** (`PredictionPage`);
- **the ML service's request gate and feedback lines** (`MlApi`);
- **the PM2.5 labelling with grey-zone removal** used to build the training data (`PmLabel`);
- **the history page's filter, search, sort and statistics** (`HistoryPage`);
- **the backend's tables and queries**, as an in-memory `Database` class whose methods keep the table constraints (`Tables`);
- **the bearer-token middleware** (`Bearer`, after section 2.1 of RFC 6750, but with a case-sensitive scheme);
- **the account routes** signup, login, Google login and logout (`AuthRoutes`);
- **the prediction and history routes** of the backend (`PredictionRoutes`, `HistoryRoutes`);
- **the prediction routes of the second backend** kept beside the client (`FeAjaPredictionRoutes`);
- **the client's signup and login forms and its header** (`SignupPage`, `LoginPage`, `Header`).

`Wrappers` holds `Option`. `Text` holds the JavaScript string operations the code uses: `startsWith`, `includes`, `trim`, ASCII case mapping, `split` and `join`.

How the model represents things:

- **Foreign functions are parameters.** Parsing, `jwt.verify`, bcrypt, Google token verification, the classifier and the server's answer to a request are all function-typed parameters. The model proves what holds for every such function.
- **Clocks are parameters.** A clock reading is passed in as a plain value (`now`, `loginTime`).
- **Numbers are reals.** The code only compares the readings, so they are modelled as `real`.
- **Client state is a class.** The client pages keep their React state as the fields of a class. `location` stands for the current route.

## Model

| member | source | states |
|---|---|---|
| PredictionPage.MockValidate | FE-aja/src/pages/PredictionPage.jsx:6-28 | score is 40 + 15 per reading inside its closed ideal interval, hence one of 40/55/70/85/100; Baik iff score ≥ 75, Sedang iff 50 ≤ score < 75, Kurang otherwise; icon by the same thresholds; four feedback lines in the order temperature, humidity, pressure, wind, each starting with ✓ iff that reading earned 25 |
| PredictionPage.QualityByPassCount | FE-aja/src/pages/PredictionPage.jsx:14-15 | Baik iff at least three readings pass, Kurang iff none pass, Sedang otherwise |
| PredictionPage.IconFollowsQuality | FE-aja/src/pages/PredictionPage.jsx:20 | the icon is a function of the quality: ✅ Baik, ⚠️ Sedang, ❌ Kurang |
| PredictionPage.FullScoreIffAllIdeal | FE-aja/src/pages/PredictionPage.jsx:8-11 | for all readings, the score is 100 exactly when each lies in its closed interval [15, 35], [30, 80], [1000, 1030], [0, 20] |
| PredictionPage.PredictionForm.constructor | FE-aja/src/pages/PredictionPage.jsx:31-36 | all four fields empty, not loading, no result |
| PredictionPage.PredictionForm.HandleValidate | FE-aja/src/pages/PredictionPage.jsx:38-60 | an empty field gives the "Harap isi semua field" error before parsing; otherwise an unparsable field gives the "harus berupa angka" error; only when all four parse is the result MockValidate of the parsed values; loading ends false; the fields are untouched |
| PredictionPage.PredictionForm.HandleReset | FE-aja/src/pages/PredictionPage.jsx:62-68 | the four fields become empty and the result is cleared |
| MlApi.Text | prediksi_udara/Processing_data/api_predict.py:55-84 | every feedback line starts with its mark (✓, ⚠ or ✗) and a space |
| MlApi.FeedbackFor | prediksi_udara/Processing_data/api_predict.py:49-86 | exactly five lines; line k < 4 is the pass line iff reading k is within its feedback range, in the order suhu, kelembapan, tekanan, kecepatan_angin; line 4 is the label line |
| MlApi.GetFeedback | prediksi_udara/Processing_data/api_predict.py:49-86 | the list built by successive appends equals FeedbackFor |
| MlApi.FirstMissing | prediksi_udara/Processing_data/api_predict.py:143-148 | the scan in field order returns nothing iff `field in data` holds for all four fields, otherwise the first field for which it fails; `in` is a key test on an object, an element test on an array and a substring test on a string |
| MlApi.InvalidFlags | prediksi_udara/Processing_data/api_predict.py:167-192 | one flag per field: the value is out of its VALID_RANGES range or not finite; a definition that ErrorsFromOrdered, ErrorsFromComplete and ValidationErrorsOf are stated against |
| MlApi.ErrorsFromOrdered | prediksi_udara/Processing_data/api_predict.py:167-192 | the errors appear in strictly increasing field order, each with its value |
| MlApi.ErrorsFromComplete | prediksi_udara/Processing_data/api_predict.py:167-192 | a field has an error entry iff it is flagged |
| MlApi.ErrorsFromEmpty | prediksi_udara/Processing_data/api_predict.py:194-206 | the error list is empty iff no field is flagged |
| MlApi.ValidationErrorsOf | prediksi_udara/Processing_data/api_predict.py:167-206 | exactly one entry per invalid field, in field order; empty iff every field is valid |
| MlApi.ValidationErrors | prediksi_udara/Processing_data/api_predict.py:167-192 | the list built by the appending checks equals the specification of the errors |
| MlApi.RangesAgree | prediksi_udara/Processing_data/api_predict.py:160-165 | VALID_RANGES coincide with the bounds get_feedback checks, field by field |
| MlApi.MaxOf | prediksi_udara/Processing_data/api_predict.py:45 | the maximum is an element and bounds every element |
| MlApi.Confidence | prediksi_udara/Processing_data/api_predict.py:43-46 | the largest class probability times 100 |
| MlApi.QualityScore | prediksi_udara/Processing_data/api_predict.py:222-226 | `quality_scores.get(kualitas, 50)`: one of 85, 60, 30, 50, and the default 50 exactly for a label other than Baik, Sedang and Buruk |
| MlApi.QualityIcon | prediksi_udara/Processing_data/api_predict.py:229-233 | `quality_icons.get(kualitas, "❓")`: one of ✅, ⚠️, ❌, ❓, and the default ❓ exactly for any other label |
| MlApi.QualityTables | prediksi_udara/Processing_data/api_predict.py:222-233 | Baik→85/✅, Sedang→60/⚠️, Buruk→30/❌; any other label gets the defaults 50 and ❓, and only those labels do |
| MlApi.Conversions | prediksi_udara/Processing_data/api_predict.py:151-154 | the four body values are converted in field order; a definition that ConvertAll and PredictPresent are stated against |
| MlApi.ConvertAll | prediksi_udara/Processing_data/api_predict.py:151-154 | succeeds iff no conversion raises, with the four floats; otherwise the error response of the first failing one |
| MlApi.Respond | prediksi_udara/Processing_data/api_predict.py:208-258 | the response carries the label, its score and icon, the confidence and the feedback; with all readings valid the first four feedback lines pass |
| MlApi.EvaluateConversionFailure | prediksi_udara/Processing_data/api_predict.py:260-267 | a failed conversion answers 400 for a ValueError and 500 otherwise, before any validation |
| MlApi.EvaluateOutOfRange | prediksi_udara/Processing_data/api_predict.py:194-206 | an out-of-range reading gives a 400 carrying the validation errors, and the classifier result is not used |
| MlApi.EvaluatePredictsOnlyValid | prediksi_udara/Processing_data/api_predict.py:167-216 | a prediction is returned only for four finite readings inside VALID_RANGES, and the model sees exactly those values |
| MlApi.PredictionFeedbackAllPass | prediksi_udara/Processing_data/api_predict.py:236 | whenever a prediction is returned, its first four feedback lines are pass lines |
| MlApi.EvaluatePrediction | prediksi_udara/Processing_data/api_predict.py:215-248 | a returned prediction carries the classifier's label, its table score and icon and the maximum-probability confidence |
| MlApi.Evaluate | prediksi_udara/Processing_data/api_predict.py:150-267 | `predict` after the field scan on the four conversions: the status is 200, 400 or 500; a prediction echoes the converted inputs; an out-of-range answer carries at least one error; the EvaluateConversionFailure, EvaluateOutOfRange, EvaluatePredictsOnlyValid and EvaluatePrediction lemmas state each branch |
| MlApi.PredictPresent | prediksi_udara/Processing_data/api_predict.py:150-267 | the imperative handler after the field scan equals Evaluate of the conversions |
| MlApi.Predict | prediksi_udara/Processing_data/api_predict.py:134-154 | 500 with no model before the body is read; 500 for a body on which `in` raises (null, a number, a boolean, an unreadable body); otherwise 400 naming the first missing field whatever the body's kind; with all four names present an array or string body is 500 at `data["suhu"]` and an object goes on to the evaluation |
| PmLabel.Kategori | prediksi_udara/Processing_data/beijing_optimasi_v3.py:30-36 | Baik iff pm ≤ 35, Sedang iff 35 < pm ≤ 75, Buruk iff pm > 75, so each value gets exactly one label |
| PmLabel.KategoriMonotone | prediksi_udara/Processing_data/beijing_optimasi_v3.py:30-36 | pm1 ≤ pm2 implies label(pm1) is no worse than label(pm2) in the order Baik < Sedang < Buruk |
| PmLabel.DropNa | prediksi_udara/Processing_data/beijing_optimasi_v3.py:18-19 | exactly the rows with all five kept columns present survive |
| PmLabel.Label | prediksi_udara/Processing_data/beijing_optimasi_v3.py:38 | one labelled row per row, in order, with the row's own label |
| PmLabel.Mask | prediksi_udara/Processing_data/beijing_optimasi_v3.py:44-45 | removes exactly the rows with 33 ≤ pm ≤ 37 or 73 ≤ pm ≤ 77 and keeps every other row |
| PmLabel.LabelledRowsAgree | prediksi_udara/Processing_data/beijing_optimasi_v3.py:38 | every labelled row keeps its features and has the label of its own pm value |
| PmLabel.MaskedLabelsSeparated | prediksi_udara/Processing_data/beijing_optimasi_v3.py:30-45 | after masking, Baik rows have pm < 33, Sedang rows 37 < pm < 73, Buruk rows pm > 77 |
| PmLabel.Prepare | prediksi_udara/Processing_data/beijing_optimasi_v3.py:18-45 | every prepared row comes from a complete raw row, outside the grey zones, with the label of its pm value |
| HistoryPage.NormalizeQuery | FE-aja/src/pages/HistoryPage.jsx:58 | the trimmed, lower-cased query is empty iff the query is all white space |
| HistoryPage.Filter | FE-aja/src/pages/HistoryPage.jsx:60-69 | keeps exactly the rows passing the quality filter and the search, each with its multiplicity in the input, and no other row |
| HistoryPage.LexLessIrreflexive | FE-aja/src/pages/HistoryPage.jsx:70 | string `<` on dates is irreflexive |
| HistoryPage.LexLessAsymmetric | FE-aja/src/pages/HistoryPage.jsx:70 | string `<` on dates is asymmetric |
| HistoryPage.LexLessTransitive | FE-aja/src/pages/HistoryPage.jsx:70 | string `<` on dates is transitive |
| HistoryPage.LexLessTotal | FE-aja/src/pages/HistoryPage.jsx:70 | distinct dates are ordered one way or the other |
| HistoryPage.SortNewestFirst | FE-aja/src/pages/HistoryPage.jsx:70 | newest date first, and a permutation of the input |
| HistoryPage.ListMeaning | FE-aja/src/pages/HistoryPage.jsx:57-71 | the list is newest first, and its rows are exactly the history rows passing filter and search, each as often as in the input |
| HistoryPage.ListHonoursQuality | FE-aja/src/pages/HistoryPage.jsx:61 | with a quality other than "semua", every listed row has that quality |
| HistoryPage.BlankQueryListsAll | FE-aja/src/pages/HistoryPage.jsx:58-62 | with a blank query, every row passing the quality filter is listed |
| HistoryPage.SearchFields | FE-aja/src/pages/HistoryPage.jsx:63-68 | a row is listed iff its lower-cased date, quality, score or temp contains the query; humidity, pressure and wind are never searched |
| HistoryPage.MaxOf | FE-aja/src/pages/HistoryPage.jsx:77 | the maximum score is one of the scores and bounds them all |
| HistoryPage.RoundDiv | FE-aja/src/pages/HistoryPage.jsx:76 | `Math.round(sum / n)`: the nearest integer, halves rounded up |
| HistoryPage.RoundDivBetween | FE-aja/src/pages/HistoryPage.jsx:76-77 | the rounded average of values in [lo, hi] lies in [lo, hi] |
| HistoryPage.ParseAll | FE-aja/src/pages/HistoryPage.jsx:75 | all scores parse, giving them in order, or the statistics get NaN |
| HistoryPage.StatsOf | FE-aja/src/pages/HistoryPage.jsx:73-79 | empty list gives {avg 0, best "-", total 0}; otherwise total is the length, best the maximum score, avg the rounded mean `Math.round(sum / length)` and min ≤ avg ≤ best |
| HistoryPage.Chart | FE-aja/src/pages/HistoryPage.jsx:262 | the chart shows the first min(5, length) listed rows |
| Tables.Stringify | backend/db/queries.js:109 | `JSON.stringify` keeps exactly the members not holding `undefined`, and a details object with no `undefined` member unchanged |
| Tables.StringifyAppend | backend/db/queries.js:109 | serialising keeps member order: the result for a concatenation is the concatenation of the results |
| Tables.IndexOfEmail | backend/db/queries.js:6-12 | the first user with the email, or none has it |
| Tables.IndexOfGoogleId | backend/db/queries.js:15-21 | the first user linked to the google id, or none is |
| Tables.IndexOfPrediction | backend/db/queries.js:84-90 | the first prediction with the id, or none has it |
| Tables.Owned | backend/db/queries.js:75 | exactly that user's rows, each with its multiplicity in the table |
| Tables.InsertNewest | backend/db/queries.js:76 | inserting into a newest-first list keeps it newest first and adds exactly the one row |
| Tables.SortNewest | backend/db/queries.js:76 | ORDER BY created_at DESC: newest first and a permutation |
| Tables.PrefixOfNewest | backend/db/queries.js:77 | LIMIT keeps the newest rows: no row left out is newer than a row kept |
| Tables.Listing | backend/db/queries.js:72-81 | a negative limit is an error; otherwise min(limit, count) of only that user's rows, newest first, none newer left out, all of them when they fit |
| Tables.UsersOkAppend | backend/db/init.js:12-22 | appending a user with a fresh id, a free email and a free google id keeps the users constraints |
| Tables.UsersOkLink | backend/db/init.js:17 | linking a google id no other user holds keeps the users constraints |
| Tables.PredictionsOkRemove | backend/db/queries.js:93-99 | removing a row keeps the predictions constraints and adds no row |
| Tables.Linked | backend/db/queries.js:35-44 | an update leaves id, email, password hash, provider and creation time as they were |
| Tables.Database.constructor | backend/db/init.js:11-53 | three empty tables, sequences at 1, constraints hold |
| Tables.Database.FindUserByEmail | backend/db/queries.js:6-12 | the matching row when there is one, nothing iff none matches |
| Tables.Database.FindUserByGoogleId | backend/db/queries.js:15-21 | the matching row when there is one, nothing iff none matches |
| Tables.Database.EmailIdentifiesUser | backend/db/init.js:14 | with UNIQUE email, every user with the email is the one found |
| Tables.Database.GoogleIdIdentifiesUser | backend/db/init.js:17 | with UNIQUE google_id, every user with the google id is the one found |
| Tables.Database.CreateLocalUser | backend/db/queries.js:47-55 | inserts one 'local' row with the next id, or fails on a taken email or a value longer than its VARCHAR limit (the model's length rule, see Left out); other tables untouched; the id sequence advances either way |
| Tables.Database.CreateGoogleUser | backend/db/queries.js:24-32 | inserts one 'google' row, or fails on a taken email or google id or a value longer than its VARCHAR limit (the model's length rule) |
| Tables.Database.UpdateGoogleUser | backend/db/queries.js:35-44 | only the row with the email changes, only in name, google id and picture; no such row changes nothing; a google id held by another user, or a value longer than its VARCHAR limit, fails |
| Tables.Database.CreatePrediction | backend/db/queries.js:60-69 | appends exactly one row with the next id, the user and the data exactly when the user exists, the label has at most 50 characters and the score fits INTEGER; otherwise fails and changes nothing |
| Tables.Database.GetPredictionById | backend/db/queries.js:84-90 | the row with the id, nothing iff none has it |
| Tables.Database.PredictionIdIdentifiesRow | backend/db/queries.js:84-90 | ids are unique, so the lookup returns the one row holding the id |
| Tables.Database.DeletePrediction | backend/db/queries.js:93-99 | removes and returns the row only when both id and owner match; otherwise nothing changes and nothing is returned |
| Tables.Database.CreateHistoryLog | backend/db/queries.js:104-112 | appends one entry whose details are the serialised object (`{}` when none is given), or fails and changes nothing |
| Tables.Database.GetPredictionsByUserId | backend/db/queries.js:72-81 | fails iff the limit (default 50) is negative; otherwise min(limit, the user's row count) of the user's own rows, newest first |
| Tables.Database.GetHistoryByUserId | backend/db/queries.js:115-124 | fails iff the limit (default 100) is negative; otherwise min(limit, the user's entry count) of the user's own entries, newest first |
| Tables.Database.DefaultPredictionLimit | backend/db/queries.js:72-81 | with no limit, at most 50 of the user's own rows, newest first |
| Tables.Database.DefaultHistoryLimit | backend/db/queries.js:115-124 | with no limit, at most 100 of the user's own entries, newest first |
| Bearer.TokenOf | backend/routes/predictions.js:24 | the token is what follows "Bearer " up to the next space |
| Bearer.TokenOfSingleToken | backend/routes/predictions.js:24 | "Bearer " followed by a space-free token yields that token |
| Bearer.LowerCaseSchemeRejected | backend/routes/predictions.js:20 | the scheme match is case-sensitive: "bearer …" is refused |
| Bearer.Authenticate | backend/routes/predictions.js:17-33 | missing or non-"Bearer " header iff NoToken; failing verification iff BadToken; otherwise the verified claims |
| Bearer.DenialMessage | backend/routes/predictions.js:20-32 | "Token tidak ditemukan" for no token, "Token tidak valid" for a bad one |
| Bearer.OptionalAuth | backend/routes/predictions.js:36-49 | always continues; the user is set iff authenticateToken would accept, with the same claims |
| Bearer.IntOr | backend/routes/predictions.js:185 | `parseInt(x) or fallback`: NaN and 0 give the fallback, any other number itself |
| PredictionRoutes.ValidateGate | backend/routes/predictions.js:57-62 | 400 iff a field is undefined; otherwise the four parsed values go to the ML call in field order |
| PredictionRoutes.FloatOrZero | backend/routes/predictions.js:157 | `parseFloat(x) or 0` is never NaN and keeps every non-NaN value |
| PredictionRoutes.Normalise | backend/routes/predictions.js:150-158 | the readings through parseFloat, the label as sent, a non-numeric score stored as 0, a NaN confidence as 0 and any other confidence as parsed |
| PredictionRoutes.Save | backend/routes/predictions.js:138-180 | 401 or 400 change nothing; a save stores one row for the caller with the normalised values and logs one CREATE_PREDICTION; nothing is logged unless the row was stored; under the model's column rules, an authorised complete request is saved exactly when the user exists, the label has at most 50 characters and the score fits INTEGER, and is 500 otherwise |
| PredictionRoutes.List | backend/routes/predictions.js:183-199 | only the caller's rows, newest first, count equal to the length; exactly min(`parseInt(limit) or 50`, the caller's row count) of them, and no row of the caller's left out is newer than a listed one; a negative limit is 500 |
| PredictionRoutes.DefaultLimitLists | backend/routes/predictions.js:185 | an absent, unparsable or 0 limit lists up to 50 rows and does not fail |
| PredictionRoutes.ShowDecision | backend/routes/predictions.js:206-215 | 404 iff no row, 403 iff the row is another user's, the row iff it is the caller's |
| PredictionRoutes.Show | backend/routes/predictions.js:202-223 | only the caller's own stored row with that id is ever shown |
| PredictionRoutes.Delete | backend/routes/predictions.js:226-250 | removes only the caller's row with that id and logs DELETE_PREDICTION after it; otherwise 404 and the tables are unchanged; with a valid token and id, the row is removed exactly when the first row with that id is the caller's |
| HistoryRoutes.List | backend/routes/history.js:27-43 | 401 without a valid token; only the caller's entries, newest first, count equal to the length; exactly min(`parseInt(limit) or 100`, the caller's entry count) of them, and no entry of the caller's left out is newer than a listed one; a negative limit is 500 |
| HistoryRoutes.DefaultLimitListsAll | backend/routes/history.js:29 | with no limit and at most 100 entries, all of the caller's entries are listed |
| FeAjaPredictionRoutes.Denied | FE-aja/backend/routes/predictions.js:14-30 | a refused request runs no query and answers 401 |
| FeAjaPredictionRoutes.Save | FE-aja/backend/routes/predictions.js:33-55 | the body goes to the store unchecked; CREATE_PREDICTION with predictionId and aqi is logged only after a row was stored |
| FeAjaPredictionRoutes.List | FE-aja/backend/routes/predictions.js:58-74 | the caller's rows with limit `parseInt(limit) or 50`, count equal to the length |
| FeAjaPredictionRoutes.ShowDecision | FE-aja/backend/routes/predictions.js:79-90 | 404 iff no row, 403 iff the owner is not strictly equal to the caller, the row iff it is |
| FeAjaPredictionRoutes.Show | FE-aja/backend/routes/predictions.js:77-98 | one lookup by id; a shown row belongs to the caller |
| FeAjaPredictionRoutes.Delete | FE-aja/backend/routes/predictions.js:101-125 | delete by id and caller; 404 when nothing was deleted; the log is written only after a deletion |
| AuthRoutes.PictureOr | backend/routes/auth.js:185 | `user.picture or picture`: the stored picture when present and non-empty, else the given one |
| AuthRoutes.SignupCheck | backend/routes/auth.js:23-33 | the missing-field, '@' and length ≥ 6 checks in that order, each message iff its check is the first to fail |
| AuthRoutes.Signup | backend/routes/auth.js:18-66 | a failed check or a taken email is 400 and changes nothing; otherwise one local user with the hash and one SIGNUP log are added, and the reply carries id, email and name but no hash |
| AuthRoutes.LoginDecision | backend/routes/auth.js:72-95 | 400 on a missing field, the same 401 for an unknown email and a wrong password, the Google 401 before any compare, accepted iff the hash matches |
| AuthRoutes.WrongPasswordLooksLikeUnknownEmail | backend/routes/auth.js:80-95 | a wrong password gets exactly the answer an unknown email gets |
| AuthRoutes.SignedUpUserCanLogIn | backend/routes/auth.js:46-95 | a stored local user logs in with a password its hash accepts |
| AuthRoutes.Login | backend/routes/auth.js:69-129 | the users table never changes; an accepted login gets a 7-day token with id, email and name and writes one LOGIN log; a refusal writes nothing |
| AuthRoutes.Resolve | backend/routes/auth.js:150-163 | the user with the google id is taken unchanged; else the user with the email is linked; only if neither exists is a google user created; the table grows by at most one |
| AuthRoutes.ResolvedAccountIsFound | backend/routes/auth.js:150-163 | after the step, the account is the one found by the google id |
| AuthRoutes.ResolveIsIdempotent | backend/routes/auth.js:150-163 | a second login with the same payload changes nothing and yields the same account |
| AuthRoutes.ResolveGoogleUser | backend/routes/auth.js:150-163 | the imperative find-or-link-or-create leaves the users table as Resolve says, other tables unchanged |
| AuthRoutes.GoogleLogin | backend/routes/auth.js:132-197 | 400 without a credential and 401 when verification fails, both unchanged; otherwise the resolved account gets a 7-day token and a LOGIN_GOOGLE log |
| AuthRoutes.Logout | backend/routes/auth.js:234-249 | always "Logout berhasil"; a LOGOUT log is written iff the token verifies and names an existing user |
| SignupPage.FormCheck | FE-aja/src/pages/SignupPage.jsx:21-39 | empty-field, '@', length ≥ 6 and confirmation checks in that order, each error iff its check is the first to fail |
| SignupPage.AcceptedFormPassesServerChecks | FE-aja/src/pages/SignupPage.jsx:21-34 | whatever the form accepts also passes the server's signup checks |
| SignupPage.FormAgreesWithServer | FE-aja/src/pages/SignupPage.jsx:21-34 | with a matching confirmation, form and server reject the same inputs for the same reason |
| SignupPage.MessageOr | FE-aja/src/pages/SignupPage.jsx:55-61 | `data.message or fallback` |
| SignupPage.SignupForm.constructor | FE-aja/src/pages/SignupPage.jsx:6-12 | empty fields and messages, not loading, no request sent |
| SignupPage.SignupForm.HandleSignup | FE-aja/src/pages/SignupPage.jsx:18-69 | a failed check sets only the error and sends nothing; otherwise exactly one request with name, email and password, never the confirmation; /login only on an ok answer; loading ends false |
| LoginPage.FormCheck | FE-aja/src/pages/LoginPage.jsx:15-23 | the empty-field error first, then the '@' error, each iff it is the first check to fail |
| LoginPage.AnyPasswordIsAccepted | FE-aja/src/pages/LoginPage.jsx:15-23 | the password content never matters beyond being non-empty |
| LoginPage.DisplayName | FE-aja/src/pages/LoginPage.jsx:34 | the stored name is the prefix of the email before its first '@', holds no '@', and is the whole email when there is none |
| LoginPage.DisplayNameOfAddress | FE-aja/src/pages/LoginPage.jsx:34 | the name of local@domain is local |
| LoginPage.LoginForm.constructor | FE-aja/src/pages/LoginPage.jsx:6-9 | empty fields, not loading, no error |
| LoginPage.LoginForm.HandleLogin | FE-aja/src/pages/LoginPage.jsx:12-40 | a failed check sets only the error; otherwise the stored record holds the email as entered, the display name and the login time, and the page goes to "/" |
| Header.Words | FE-aja/src/components/Header.jsx:35 | the non-empty pieces of the name's split, and all of them |
| Header.FirstChars | FE-aja/src/components/Header.jsx:35 | empty pieces contribute nothing; one character per word, in order |
| Header.Initials | FE-aja/src/components/Header.jsx:35 | "SK" without a user; otherwise the upper-cased first character of each space-separated word, as many as there are words |
| Header.WordsHaveNoSpace | FE-aja/src/components/Header.jsx:35 | the words are non-empty and hold no space |
| Header.OneWordInitial | FE-aja/src/components/Header.jsx:35 | a one-word name gives its upper-cased first character |
| Header.HeaderState.constructor | FE-aja/src/components/Header.jsx:6-18 | both menus closed, the user read from storage |
| Header.HeaderState.ActiveIsExact | FE-aja/src/components/Header.jsx:33 | `isActive` holds for a path iff it equals the current route: the route itself is active, nothing else is, and no proper prefix such as "/" |
| Header.HeaderState.Go | FE-aja/src/components/Header.jsx:20-23 | closes the mobile menu and navigates; afterwards exactly that path is active |
| Header.HeaderState.HandleLogout | FE-aja/src/components/Header.jsx:25-31 | the stored user is removed and forgotten, the avatar menu closed, the page at "/", the initials back to "SK" |

## Left out

- Network and I/O: `fetch`, Express wiring (`backend/index.js`), CORS, request logging and the ML call behind `/validate`, including its 503 on a refused connection. `PredictionRoutes.ValidateGate` stops at the input check.
- JWT signing and verification, bcrypt hashing and comparison, and Google `verifyIdToken` are function parameters. Token expiry is checked inside the verifier, so `Token.expiresInDays` only records the 7-day lifetime.
- bcrypt's random salt: the hash is a function of the password.
- Parsing (`parseFloat`, `parseInt`, Python `float`) is a function parameter. JavaScript prefix parsing ("12abc" is 12) is not modelled.
- Floating point: the readings are reals. `round(..., 2)` of the confidence and probabilities is not modelled. REAL column precision is not modelled.
- PostgreSQL column behaviour beyond a strict length limit is not modelled. (a) A REAL column raises "out of range for type real" for a finite value beyond float4's range or a nonzero value that rounds to 0; the model stores any reading. (b) A VARCHAR(n) column truncates and stores a value that is longer than n only by trailing spaces; the model rejects every value longer than n. (c) A string holding U+0000 makes any query fail; the model stores and looks up such strings like any other. The lines below name the members whose contracts state the model's rule instead.
- Tables.Database.CreatePrediction: stores a reading outside float4's range, which PostgreSQL rejects; rejects a label longer than 50 characters only by trailing spaces, which PostgreSQL truncates and stores; stores a label holding U+0000.
- Tables.Database.CreateLocalUser: fails on an email, name or password hash longer than 255 characters only by trailing spaces, which PostgreSQL truncates and stores; accepts U+0000.
- Tables.Database.CreateGoogleUser: fails on an email, name, google id or picture longer than its limit only by trailing spaces, which PostgreSQL truncates and stores; accepts U+0000.
- Tables.Database.UpdateGoogleUser: fails on a name, google id or picture longer than its limit only by trailing spaces, which PostgreSQL truncates and accepts; accepts U+0000.
- Tables.Database.CreateHistoryLog: fails on an action longer than 100 characters only by trailing spaces, which PostgreSQL truncates (the routes pass only fixed actions of at most 17 characters); JSONB's refusal of U+0000 in the details is not modelled.
- PredictionRoutes.Save: "saved exactly when" holds under the model's column rules only; with PostgreSQL's, a reading outside float4's range answers 500 and a label over-long only by trailing spaces is saved truncated.
- AuthRoutes.Signup: an email or name longer than 255 characters only by trailing spaces answers 500 in the model, where PostgreSQL signs the user up with the truncated value.
- AuthRoutes.Resolve: linking and creating fail on a name, google id or picture over-long only by trailing spaces, which PostgreSQL accepts truncated. A truncated google id would not be found by the next login (VARCHAR comparison keeps trailing spaces), so AuthRoutes.ResolveIsIdempotent holds under the model's column rules only.
- AuthRoutes.ResolveGoogleUser: inherits AuthRoutes.Resolve's length rule.
- AuthRoutes.GoogleLogin: answers 401 where the source logs in when the Google name, id or picture is over-long only by trailing spaces.
- MlApi.Confidence: states the maximum probability times 100 without the rounding to two decimals.
- The `/stats`, `/sample` and health endpoints of the ML service (pandas aggregates and random sampling), and the `/me` route of `backend/routes/auth.js`, are not modelled.
- The ML pipeline itself: training, scaling, SMOTE, accuracy checks, and the pandas steps of the labelling script other than `dropna`, the labelling and the mask.
- FE-aja/backend/db/queries.js is not part of this model. The second backend's routes are modelled as the queries they call and their replies, given the store's answers.
- The FE-aja database pool and the DDL execution in `backend/db/init.js`. Only the table constraints (SERIAL ids, UNIQUE email and google_id, foreign keys, VARCHAR lengths as strict limits) are kept, as the invariant of `Tables.Database`.
- Concurrency and transactions. Each route runs alone, so the race between a UNIQUE lookup and an insert is not modelled.
- Failed history-log writes: after a successful insert or delete, the log's user exists, so those 500 paths are unreachable under the table invariant. `PredictionRoutes.Save`, `PredictionRoutes.Delete`, `AuthRoutes.Signup`, `AuthRoutes.Login` and `AuthRoutes.GoogleLogin` state the appended log on success, so their log-failure branch is proved unreachable. Only `AuthRoutes.Logout` reaches it, for a valid token that names a missing user.
- Absent or non-string JSON body fields: the signup, login and Google handlers only test fields for falsiness, so an absent field is "".
- The Google payload is assumed always to carry an email.
- Case mapping is ASCII-only. Strings are sequences of code points, not UTF-16 units.
- HistoryPage.SortNewestFirst: states newest first for distinct dates only. The source comparator answers -1 for equal dates in both directions, so their order is left unspecified.
- Timers and `alert`. The 600 ms and 800 ms waits and the 2 s redirect delay are modelled as immediate. The localStorage record is kept as a value, not as its JSON text.
- JSONB storage of `history.details` (`backend/db/init.js:51`): PostgreSQL reorders an object's keys and keeps only the last of duplicate keys. The model stores the `JSON.stringify` member sequence as sent, so the stored order is the sent order.
- Rendering and styling of every page and of the pure UI components.
- `kualitas` values that are not strings (non-string dictionary keys in the score and icon tables).
- The Python comments beside the ranges disagree with the code. The model follows the code.
- The mock scorer's ranges in the client and VALID_RANGES in the ML service differ. They are modelled separately.
