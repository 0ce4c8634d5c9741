# A verified model of the IHC-testing pathology app's decision logic

The application takes an H&E-stained breast-tissue slide and runs it through two placeholder
"models":

1. A converter turns the slide into a virtual IHC (immunohistochemistry) image. It shifts the HSV
   hue, boosts the saturation, adds noise and applies a morphological close.
2. A rule-based classifier scores the virtual image for HER2 expression from its mean and standard
   deviation, plus a few random draws.

The web layer validates uploads and registrations, tracks each analysis session through
`processing` → `completed` | `failed`, stores a diagnostic report with treatment recommendations,
and shows per-user statistics on a dashboard.

This project models that decision logic in Dafny and proves what it promises. The modules are:

- `Wrappers`: `Option`, `Result`, `Outcome`.
- `Images`: 8-bit pixels, clamping, and the image loader's error text.
- `CancerClassifier`: the HER2 scoring rule of `ml_models.py`, as pure functions of the image
  statistics and the draws.
- `IhcConverter`: the channel arithmetic and normalisation of `HEToIHCConverter`.
  - The hue/saturation adjustment and the noise addition are methods that update a pixel array
    in place.
  - `convert` writes into an `ImageFiles` object that stands for the file system.
- `Utils`: the upload-filename check, the badge lookup tables and the `None` cases of the
  formatters in `utils.py`.
- `Routes`: the logic of `routes.py`.
  - `Routes.Store` is a class whose fields are the `User`, `AnalysisSession` and `ReportData`
    tables.
  - Its methods `ProcessImage` and `Register` play the two routes that write to the database.
  - Its invariant holds three facts: usernames and emails are unique, every session has settled
    with a unique id, and every report belongs to a completed session.
  - `ProcessImage` is proved equal to the pure `Process` function, and the lemmas about the
    lifecycle are proved about that function.

Inputs the code gets from outside become parameters:

- the random draws (`Draws`, a noise array);
- the image statistics that NumPy computes;
- the OpenCV colour conversions and morphological close (function-valued parameters);
- the image buffer after `cv2.imread`, the BGR→RGB `cvtColor` and the resize, or `None` when
  `cv2.imread` fails;
- the outcomes of the two phases, of `file.save`, of the converter's image `save` and of report building;
- the session id that `uuid4` draws, the result of `secure_filename`, the password hash, and the
  clock.

Each unit draw `u` in [0, 1] is scaled as `random.uniform` does: `lo + (hi - lo) * u`.

In the code the grade comes from the randomly drawn biomarker percentage, not from the image
statistics alone: an equivocal image is Grade 1 whenever the draw is at most 30 %.
`GradeDependsOnDraw` shows both outcomes for the same statistics.

## Model

| member | source | states |
|---|---|---|
| Images.Clamp | ml_models.py:128 | `np.clip` on integers: the result lies in [lo, hi], a value already in the range is unchanged, a value at or below lo gives lo and one at or above hi gives hi |
| Images.ClampReal | ml_models.py:121 | `np.clip` on floats: the result lies in [lo, hi], a value already in the range is unchanged, a value at or below lo gives lo and one at or above hi gives hi |
| CancerClassifier.IntensityFor | ml_models.py:236-246 | strong iff positive, moderate iff equivocal, weak iff negative |
| CancerClassifier.UnitChannel | ml_models.py:180-181 | classifier normalisation `v / 255.0` maps every byte into [0, 1], with 0 ↦ 0 and 255 ↦ 1 |
| CancerClassifier.Uniform | ml_models.py:234-245 | a `random.uniform(lo, hi)` draw lies in [lo, hi] and reaches both ends |
| CancerClassifier.Classify | ml_models.py:232-246 | positive iff mean > 0.6 and std > 0.15; negative iff mean ≤ 0.4, whatever the std; equivocal otherwise |
| CancerClassifier.ConfidenceBand | ml_models.py:234-244 | the confidence band of each status: positive [0.75, 0.95], equivocal [0.5, 0.75], negative [0.8, 0.95], all within [0.5, 0.95] |
| CancerClassifier.PercentageBand | ml_models.py:235-245 | the biomarker band of each status: positive [60, 90], equivocal [20, 60], negative [0, 20], all within [0, 90] |
| CancerClassifier.GradeFor | ml_models.py:249-254 | Grade 3 iff percentage > 70; Grade 1 iff percentage ≤ 30; Grade 2 otherwise |
| CancerClassifier.PositiveCells | ml_models.py:257-258 | in exact arithmetic, `int(total * pct / 100)` is the floor of that product; it lies in [0, total] |
| CancerClassifier.StainedArea | ml_models.py:261-271 | the stained area lies in [0, 100], never exceeds pct × jitter, equals it when that is at most 100, and is exactly 100 when that is at least 100 |
| CancerClassifier.GenerateSyntheticPredictions | ml_models.py:216-272 | with draws in range: status is `Classify`'s; confidence and percentage lie in their status's bands; grade and intensity follow the thresholds; 800 ≤ total ≤ 1500; positive cells are floor(total × pct/100) ≤ total in exact arithmetic; the area lies in [0, 100] and is either the cap 100 or between 0.8 and 1.2 times the percentage |
| CancerClassifier.Predict | ml_models.py:191-214 | an unreadable image fails with the loader's message; otherwise the result is a valid prediction whose status is `Classify`'s |
| CancerClassifier.GradeFollowsStatus | ml_models.py:232-254 | a negative result is always Grade 1, a positive one never Grade 1, an equivocal one never Grade 3 |
| CancerClassifier.CategoriesDependOnStatsOnly | ml_models.py:232-246 | two calls with equal statistics agree on status and staining intensity whatever they draw |
| CancerClassifier.GradeDependsOnDraw | ml_models.py:237-254 | the same equivocal statistics give Grade 1 with a 20 % draw and Grade 2 with a 60 % draw |
| CancerClassifier.Boundaries | ml_models.py:232-271 | strict comparisons at the edges: mean 0.6 is never positive, mean 0.4 is negative, 30 % is Grade 1, 70 % is Grade 2, and 90 % × 1.2 is capped at 100 |
| IhcConverter.Truncate | ml_models.py:65 | a float-to-integer cast rounds toward zero: the result keeps the sign of x and lies within one of it on the side of zero, so abs(n) ≤ abs(x) < abs(n) + 1 |
| IhcConverter.CastToUint8 | ml_models.py:114 | `astype(np.uint8)` always yields a byte, and is the floor on [0, 256) |
| IhcConverter.NormaliseChannel | ml_models.py:48 | `v / 127.5 - 1` maps bytes into [-1, 1] |
| IhcConverter.DenormaliseChannel | ml_models.py:114 | `((g + 1) * 127.5).astype(uint8)` yields a byte, and is the floor of the scaled value on [-1, 1] |
| IhcConverter.DenormaliseNormalise | ml_models.py:114 | in exact arithmetic, denormalising a normalised byte gives the byte back (not in the source's float32; see "Left out") |
| IhcConverter.PostprocessChannelAsWritten | ml_models.py:64-68 | as written, the clip after the cast equals the bare cast and never changes a value |
| IhcConverter.PostprocessChannel | ml_models.py:64-68 | with the clip applied first: always a byte, saturating at 255 for g ≥ 1 and at 0 for g ≤ -1, and equal to the as-written version on [-1, 1] |
| IhcConverter.PostprocessOutOfRange | ml_models.py:64-68 | a generated value of 1.1 becomes 11 as written but 255 when clipped first |
| IhcConverter.ShiftHue | ml_models.py:120 | the adjusted hue lies in [0, 179], and is min(h + 10, 179) for every hue OpenCV produces |
| IhcConverter.FloorOfQuotient | ml_models.py:121 | the floor of the real quotient n/d is the integer quotient |
| IhcConverter.ScaleSaturation | ml_models.py:121 | the saturation is a byte, and is min(⌊s·13/10⌋, 255) for s ≥ 0 |
| IhcConverter.AdjustHsv | ml_models.py:119-121 | hue and saturation are adjusted and stay in range, and the value channel is untouched |
| IhcConverter.Wrap16 | ml_models.py:127-128 | int16 arithmetic wraps around: the result lies in [-32768, 32767], is congruent to the exact value modulo 65536, and equals it inside the range |
| IhcConverter.NoisyChannel | ml_models.py:128 | a noisy channel is always a byte, and is the clipped sum whenever that sum fits in int16 |
| IhcConverter.AddNoisePixel | ml_models.py:126-128 | every channel of a noisy pixel is a byte |
| IhcConverter.AddNoiseAll | ml_models.py:126-128 | the noisy image has the same length, is pixel-wise `AddNoisePixel`, and is all bytes |
| IhcConverter.NormalisePixel | ml_models.py:134-135 | an 8-bit pixel normalises into [-1, 1] on every channel |
| IhcConverter.NormaliseImage | ml_models.py:134-135 | normalising keeps the length, and an 8-bit image lands in [-1, 1] |
| IhcConverter.DenormalisePixel | ml_models.py:113-114 | every denormalised channel is a byte |
| IhcConverter.DenormaliseImage | ml_models.py:113-114 | denormalising keeps the length and yields an 8-bit image |
| IhcConverter.PostprocessPixel | ml_models.py:58-73 | as written (cast, then a clip that changes nothing): every postprocessed channel is a byte |
| IhcConverter.PostprocessImage | ml_models.py:58-73 | as written: postprocessing keeps the length and yields an 8-bit image |
| IhcConverter.DenormaliseNormaliseImage | ml_models.py:113-114 | in exact arithmetic, denormalising a normalised 8-bit image gives it back |
| IhcConverter.PostprocessNormaliseImage | ml_models.py:58-73 | in exact arithmetic, postprocessing a normalised 8-bit image gives it back |
| IhcConverter.SyntheticIhcPixels | ml_models.py:105-140 | the synthetic IHC image has the original's size and is all bytes |
| IhcConverter.AdjustHueSaturation | ml_models.py:119-121 | the HSV array is overwritten in place with every pixel adjusted |
| IhcConverter.AddNoise | ml_models.py:126-128 | the image array becomes the noisy image, all bytes, while the noise array is untouched |
| IhcConverter.GenerateSyntheticIhc | ml_models.py:105-140 | the output is the normalised synthetic image of the denormalised input, in [-1, 1] |
| IhcConverter.Preprocess | ml_models.py:33-56 | `imread` returning `None` fails with "Could not load image from <path>"; otherwise the image is normalised |
| IhcConverter.Convert | ml_models.py:75-103 | an unreadable input fails with the loader's message, and a failing `save` fails with its error, both with no file written; otherwise exactly the output path is written, holding an 8-bit image, which in exact arithmetic is the synthetic image of the input |
| Utils.AllowedFile | utils.py:13-16 | an accepted filename has a dot, and its extension has 3 or 4 characters |
| Utils.ExtensionSplit | utils.py:16 | `rsplit('.', 1)[1]` has no dot and is shorter than the name, and the name is the part before the last dot, the dot, and the extension |
| Utils.LastDot | utils.py:16 | −1 iff there is no dot; otherwise the index of a dot with no dot after it |
| Utils.LastDotOfSplit | utils.py:16 | in `p + "." + e`, where `e` has no dot, the last dot is the one before `e` |
| Utils.AllowedFileSplit | utils.py:13-16 | a dotted name is accepted iff the text after its last dot, lower-cased, is in {png, jpg, jpeg, tiff, tif} |
| Utils.NoDotRejected | utils.py:15 | a filename without a dot is rejected |
| Utils.LastExtensionExamples | utils.py:16 | `scan.exe.png` is accepted and `scan.png.exe` rejected |
| Utils.CaseAndEdgeExamples | utils.py:11-16 | `SLIDE.TIF` and `.png` are accepted; `x.` and `png` are rejected |
| Utils.GetStatusBadgeClass | utils.py:191-199 | processing ↦ bg-warning, completed ↦ bg-success, failed ↦ bg-danger; bg-secondary iff any other status, `uploaded` included |
| Utils.GetHer2BadgeClass | utils.py:201-208 | positive ↦ bg-danger, negative ↦ bg-success, equivocal ↦ bg-warning; bg-secondary iff anything else |
| Utils.Her2BadgesDistinct | utils.py:201-208 | each status the classifier produces gets its own badge, never the neutral one |
| Utils.FormatConfidence | utils.py:179-183 | "N/A" iff there is no confidence; otherwise the value with the `.1%` format |
| Utils.FormatPercentage | utils.py:185-189 | "N/A" iff there is no percentage; otherwise the value with `.1f` and a `%` sign |
| Routes.JoinPathEndsWithName | routes.py:51 | `os.path.join(folder, name)` ends with `name` |
| Routes.ImagePathsEndWithNames | routes.py:50-68 | the stored H&E path (`HeImagePath`) ends with `<session id>_<safe name>`, and the IHC path (`IhcImagePath`) with `<session id>_ihc.png` |
| Routes.NewSession | routes.py:55-60 | a new session starts in `processing`, not settled, with the given id, user, file name, path and creation time, and with every result field, the IHC path, the error and `completed_at` unset |
| Routes.AdviceLines | routes.py:202-224 | each recommendation text has four bullet lines |
| Routes.AdviceTextsDistinct | routes.py:199-224 | the three recommendation texts differ from each other |
| Routes.UploadRejection | routes.py:33-44 | an upload passes iff the file part is present, its name is non-empty and `allowed_file` accepts it; a missing file part or an empty name is refused with "No file selected", and a name `allowed_file` refuses with the invalid-format message |
| Routes.GenerateRecommendations | routes.py:199-224 | the targeted-therapy text iff positive; the not-indicated text iff negative; the additional-testing text iff equivocal or no status |
| Routes.RegistrationError | routes.py:311-330 | there is no error iff every required field is filled, the passwords match, the password has at least 6 characters, and neither the username nor the email is taken. Otherwise the first failing check in that order names the message: missing fields, mismatch, too short, username taken, email taken |
| Routes.ErrorIdentifiesCheck | routes.py:311-330 | each message is reported exactly when every earlier check passed and its own check failed, so the flash identifies the failing check |
| Routes.NewUser | routes.py:332-340 | the created account has the submitted username, email, first and last name and the given password hash, role `user`, and is active |
| Routes.RoleIgnored | routes.py:306-339 | the submitted role changes neither the validation outcome nor the account created |
| Routes.AddUserKeepsUnique | routes.py:324-343 | adding a user with a fresh username and email keeps both columns unique |
| Routes.StatusCountsWithinTotal | routes.py:366-368 | a user's completed and failed sessions together number at most all of that user's sessions |
| Routes.SettledCountsAddUp | routes.py:366-368 | when every session has settled, completed plus failed equals the total |
| Routes.SuccessRate | routes.py:374 | 0 when there are no sessions; otherwise rate × total = completed × 100 in exact arithmetic; it lies in [0, 100] and is 100 when all completed |
| Routes.Dashboard | routes.py:365-375 | the total, completed and failed counts are the user's sessions, and those in each status; the rate satisfies rate × total = completed × 100 in exact arithmetic, lies in [0, 100] and is 0 without sessions; completed + failed ≤ total, with equality once every session has settled |
| Routes.SettledBadge | utils.py:191-199 | a settled session shows the success or the danger badge |
| Routes.PhasePrefixesDistinct | routes.py:77-101 | no error message starts with both the phase-1 prefix and the phase-2 prefix |
| Routes.AnalysedSession | routes.py:55-104 | the record a started run leaves has settled. It keeps the id, user, file name, upload path and creation time. It is completed iff both phases passed. It has an IHC path iff phase 1 passed. Its error message carries the failing phase's prefix. On success the five prediction fields and `completed_at` are copied from the result |
| Routes.DiagnosticReport | routes.py:107-117 | the report of a successful run is `diagnostic`, carries the status's recommendations, and carries the classifier's cell counts and stained area |
| Routes.Process | routes.py:28-130 | a rejected upload, or an error before the first commit, changes no table. A started run adds exactly its settled session. A report is added only on success and only when report building did not fail. The response is the results page on success, and otherwise the failing phase's flash |
| Routes.AddSessionKeepsValid | routes.py:55-62 | appending a settled session with a fresh id keeps the tables valid |
| Routes.ProcessKeepsValid | routes.py:28-130 | every call keeps the tables valid: ids stay unique, no session is left `processing`, and no report belongs to an incomplete session. "Nothing left `processing`" holds because the paths where a commit raises are not modelled (see "Left out") |
| Routes.ProcessAddsAtMostOne | routes.py:28-130 | a call keeps the existing sessions and adds at most one session and one report; a new report comes with a new completed session of the same id |
| Routes.Store.ProcessImage | routes.py:28-130 | the tables and the response become what `Process` gives for the old tables; the users are unchanged and the store stays valid |
| Routes.Store.RunPhases | routes.py:55-125 | after the upload is saved, exactly the analysed session is appended, the report is appended when due, and the matching response is returned |
| Routes.Store.Register | routes.py:293-348 | a signed-in user is redirected; a page request shows the form; a failed validation flashes `RegistrationError`'s message with the users unchanged; otherwise exactly `NewUser` is added, with role `user` |

## Left out

- Flask routing, login and logout, flash categories, redirects, templates, `send_file` and the error handlers are left out. Only the route logic above is modelled, and a route's answer is the page it redirects to plus the message it flashes.
- SQLAlchemy persistence is reduced to the three tables held as sequences in `Routes.Store`. Commits are not modelled separately: a table ends in the state of its last commit.
- The raise paths that need the ORM are left out: an exception during `db.session.commit` raises inside the phase handlers, and the final commit can raise. The model covers one pre-commit error path: a taken session id, or a failed `file.save`, leads to the "unexpected error" answer.
- The password hashing of `set_password` is an input (Werkzeug code is not part of this model). The login route (`login`), `logout`, `results`, `report`, `download_report`, `profile` and the file-serving routes are outside the core.
- `uuid4`, `current_user`, `secure_filename` and `datetime.utcnow` are parameters of `Routes.Run`. The upload and generated folders are the parameter `Routes.Folders`.
- The dashboard's list of the ten most recent sessions is left out; only the statistics are modelled.
- `generate_summary` and `generate_technical_notes` are left out. They only interpolate formatted numbers and dates into text, and a failure while building them is the `reportFails` input.
- `Routes.JoinPath` models `os.path.join` for two POSIX components. It carries no contract of its own: the path strings are only stored, never inspected.
- `generate_report_pdf` (ReportLab layout), `process_image` (which only logs) and the float formatting of `format_confidence` / `format_percentage` are left out. The formatters are modelled as the number, the format specification and the suffix.
- OpenCV and PIL are left out: `imread` together with the BGR→RGB `cvtColor` and the resize of `preprocess_image` (the `image` input of `Preprocess` and `Convert` stands for the converted, resized buffer, or `None`; that of `Predict` for the statistics of such a buffer, or `None`), the RGB↔HSV `cvtColor` calls (function parameters), `resize`, `morphologyEx` (a function parameter that keeps the size and 8-bit range), `Image.fromarray` and `save` (a write into `ImageFiles`; an exception either raises is the `saveError` input of `Convert`).
- The 256×256 and 224×224 resize targets are therefore not modelled. Neither is the statistic computation: the mean and standard deviation are inputs of the classifier.
- NumPy's Gaussian noise generation is left out; the noise is an input array. Its float-to-int16 `astype(np.int16)` truncation is folded into the input: the noise array already holds the integer values. `Wrap16` models the int16 sum of a channel and its noise.
- `load_model`, `extract_features` and the `model_loaded` and `class_names` fields are left out. They hold no decision logic, and nothing in the core reads them.
- `time.sleep` and logging are left out.
- `static/js/main.js` (browser UI code) and `run_simple.py` (server start-up) are left out.
- IhcConverter.DenormaliseNormalise: the normalisation `v / 127.5 - 1` and its inverse `(g + 1) * 127.5` are computed over exact reals. The source computes them in float32, where the round trip is not exact: channel values 1 to 63 come back one lower (byte 1 becomes -0.99215686, then 0.99999994, which truncates to 0).
- IhcConverter.DenormaliseNormaliseImage: the image round trip holds in exact arithmetic only, for the same float32 reason.
- IhcConverter.PostprocessNormaliseImage: the round trip through `postprocess_image` holds in exact arithmetic only, for the same float32 reason.
- IhcConverter.Convert: the saved file equals `SyntheticIhcPixels` of the input only in exact arithmetic. In float32, channel values 1 to 63 of the decoded original drop by one before the HSV step, and the final normalisation and postprocessing can lower values again. That the saved file is 8-bit and written only as the last step does not depend on the arithmetic.
- `IhcConverter.ScaleSaturation`: the factor 1.3 is taken as exactly 13/10. The double nearest 1.3 lies slightly above it, so the model is exact only where that difference does not cross an integer.
- `CancerClassifier.Classify`: the mean and standard deviation are `np.mean` / `np.std` of a float32 array, so they are float32 values, and under NumPy 2's promotion rules `mean > 0.6` compares in float32. The model compares exact reals. A mean equal to float32(0.6) ≈ 0.6000000238 is not positive in the source but passes `Classify`'s test; the thresholds 0.4 and 0.15 have the same edge.
- `CancerClassifier.GenerateSyntheticPredictions`: `random.uniform` runs in double precision in the source. The model uses exact reals, so its bounds are exact statements about the real-number arithmetic.
- CancerClassifier.PositiveCells: the product `total * (pct / 100)` is computed over exact reals. The source computes it in double, where it can fall just below an integer the exact product reaches and give one cell fewer: 800 cells at 29.0 % is 231.99999999999997 in double, so `int` gives 231 where the model gives 232. The bound [0, total] holds either way.
- Routes.SuccessRate: `completed / total * 100` is computed over exact reals, so rate × total = completed × 100 holds in exact arithmetic only. In double, 1 of 3 gives 33.33333333333333, and that times 3 is 99.99999999999999. The bounds [0, 100], 0 without sessions and 100 when all completed hold in double as well.
- Routes.Dashboard: its success rate is `SuccessRate`'s, so its rate identity holds in exact arithmetic only, as above. The three counts are integers and exact.
- `Utils.Lower`: only ASCII letters are lower-cased. No other character lower-cases into the letters of an allowed extension, so acceptance is the same as with Python's `str.lower`.

## Findings

| source | as written | input that shows it | evidently intended | confidence | as-written member | corrected member |
|---|---|---|---|---|---|---|
| ml_models.py:64-68 | `postprocess_image` casts to `uint8` before `np.clip(image, 0, 255)`, so the clip can never change a value and an out-of-range generator output wraps. | A generated value of 1.1: (1.1 + 1) × 127.5 = 267.75, which casts to 267 and wraps to 11 instead of saturating at 255. | Clip to [0, 255] before the cast ("Ensure valid pixel range"), so values saturate. | low: the wrap of an out-of-range float-to-uint8 cast is platform-dependent in NumPy, and the placeholder generator never leaves [-1, 1]; not executed | IhcConverter.PostprocessOutOfRange | IhcConverter.PostprocessChannel |
