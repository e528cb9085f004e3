# Star-tracker plate solving and overlay: a Dafny model

This project models the core of the star-tracker data-analysis scripts:

- the name matching between the plate solver's annotations and a small
  constellation catalogue;
- the client of the nova.astrometry.net web API: request encoding, reply
  classification, login, the upload-option table, and the command-line
  runner's option assembly and polling loops;
- the second, simpler solver client and its per-image driver loop;
- the drawing decisions of the overlay that marks solved objects and draws
  constellation lines.

The modules follow the program's files:

| module | file | what it holds |
|---|---|---|
| `PyValues` (pyvalues.dfy) | — | Python values as the code sees them: JSON values, truthiness, dicts as ordered association lists, `d.get`, `d[k] = v`, `d.update`, the exceptions raised, and the shape of a polling loop |
| `StarCatalog` (catalog.dfy) | constellation_data.py | the colour, distance, line and Greek-letter tables; `normalize_name` as a fold of `str.replace` over the table followed by `' '.join(s.split())`; `find_star_in_annotations` as a first-match search |
| `Overlay` (overlay.dfy) | annotate_fits.py | the annotation loop and the constellation-line loop of `annotate_image`, drawing modelled as the sequence of primitives issued |
| `RequestEncoding` (encoding.dfy) | client.py | UTF-8, the multipart body and the form body of `send_request`, each with a decoder a receiver would apply |
| `NovaClient` (client.dfy) | client.py | `Client` (its `session` field), the caller's argument dict updated in place, `_get_upload_args`, `upload`, `url_upload`, `ClientRunnerOptions` and the steps of `run_client` |
| `Solver` (solver.dfy) | astrometry_solver.py | `AstrometrySolver` (its `session` field), its two polling loops, and the loop of `main` |

Inputs the program obtains from the outside world are parameters:

- HTTP replies, one per request or a finite sequence of them for a polling loop;
- file contents, and whether a file can be opened;
- the 19 random boundary digits;
- `json.dumps`, as a function from a dict to a text without a raw newline;
- the Python conversions `str`, `float`, `int`, `bool` and `list`, as a function that may fail.

A polling loop that the program would run forever is modelled over a finite
sequence of replies. It ends with a value, with an exception, or with
"still pending" once the replies run out.

Four behaviours of the code are easy to misread; the model follows the code:

- **Case-sensitive matching.** Alias matching is a case-sensitive substring
  test. So the pattern "Eta Ori" does not match the alias "θ Ori", even though
  its normal form "Theta Ori" ends in "eta Ori". `ThetaIsNotEta` proves this.
- **Job selection.** The runner of client.py selects the first job id of a
  finished submission that is not None (client.py:350-357).
  astrometry_solver.py inspects only `jobs[0]` and returns `[]` when it is
  None. `NullFirstJobDiffers` shows the two clients disagreeing on the job
  list `[None, j]`.
- **HTTP errors.** `send_request` catches an HTTP error and returns None,
  modelled as `Ok(Null)`. The caller then fails on that None. `login` raises
  AttributeError on `None.get('session')` (client.py:129). The runner raises
  TypeError on `None['status']` after an upload (client.py:333).
- **Boundary collisions.** The multipart boundary is drawn at random, and the
  code never checks that it is absent from the file bytes. The model does not
  address collisions. `MultipartRoundTrip` holds for the receiver modelled
  here, which expects the close delimiter at the very end of the body. A
  receiver that cuts at the first delimiter line would truncate a file that
  contains a newline followed by `--` and the boundary.

## Model

| member | source | states |
|---|---|---|
| StarCatalog.StaticTablesConsistent | constellation_data.py:4-107 | every endpoint of every constellation line has a catalogue distance, every distance is positive, and every constellation with lines has a colour |
| StarCatalog.GreekTableOk | constellation_data.py:110-135 | every Greek key lies outside ASCII and every Latin name is ASCII, so no replacement can bring a key back |
| StarCatalog.GreekTableShape | constellation_data.py:110-135 | every Latin name is a single word, and the 24 keys are distinct, in increasing code-point order |
| StarCatalog.GreekLetterExpands | constellation_data.py:110-144 | each of the 24 Greek letters is a key, and it is rewritten to exactly its own Latin name |
| StarCatalog.ReplaceEachIsTransliteration | constellation_data.py:143-144 | applying `name.replace(greek, english)` for each table entry in turn equals rewriting every character by its table entry in a single pass, for any table whose keys are non-ASCII and whose values are ASCII |
| StarCatalog.TransliterateRemovesKeys | constellation_data.py:143-144 | after the rewriting no key of the table is left in the text |
| StarCatalog.SplitGivesWords | constellation_data.py:147 | the pieces `str.split()` returns are non-empty and contain no whitespace |
| StarCatalog.JoinIsCollapsed | constellation_data.py:147 | words joined by single spaces have no leading or trailing whitespace, no whitespace other than a space, and no two adjacent whitespace characters |
| StarCatalog.SplitJoin | constellation_data.py:147 | splitting words joined by single spaces gives back the same words |
| StarCatalog.CollapseIdempotent | constellation_data.py:147 | collapsing whitespace twice equals collapsing it once |
| StarCatalog.NormalizeName | constellation_data.py:137-149 | `normalize_name` equals the one-pass rewriting of every Greek letter to its Latin name, every other character kept, followed by whitespace collapsing |
| StarCatalog.NormalizeNameGreekFree | constellation_data.py:137-149 | the result of `normalize_name` contains none of the 24 Greek keys |
| StarCatalog.NormalizeNameCollapsed | constellation_data.py:147-149 | the result has no leading or trailing whitespace and no two adjacent spaces, and it holds the same words as the rewritten input |
| StarCatalog.NormalizeNameWithoutGreek | constellation_data.py:143-147 | on a name without Greek letters, `normalize_name` only collapses whitespace |
| StarCatalog.NormalizeNameIdempotent | constellation_data.py:137-149 | normalising a normalised name changes nothing |
| StarCatalog.FindStar | constellation_data.py:151-177 | `find_star_in_annotations` returns, when it finds anything, one of the annotations searched, and finds nothing in an empty list; which one it returns is stated by `FindStarFirstMatch` |
| StarCatalog.FindStarFirstMatch | constellation_data.py:151-177 | `find_star_in_annotations` returns None exactly when no alias of any annotation contains the pattern after normalisation; otherwise it returns a matching annotation before which no annotation matches |
| StarCatalog.SingleAliasMatches | constellation_data.py:162-172 | an annotation with one alias matches exactly when that normalised alias contains the pattern as a case-sensitive substring |
| StarCatalog.NamelessNeverMatches | constellation_data.py:163-172 | an annotation without `names`, or with an empty alias list, never matches any pattern |
| StarCatalog.GreekAliasResolves | constellation_data.py:137-172 | for each of the 24 letters, an alias "letter word" normalises to "LatinName word" and resolves the catalogue pattern "LatinName word" |
| StarCatalog.BetaResolves | constellation_data.py:137-172 | the alias "β Ori" (or β before any other ASCII word) normalises to "Beta Ori" and resolves the pattern "Beta Ori" |
| StarCatalog.ThetaIsNotEta | constellation_data.py:137-172 | the alias "θ Ori" normalises to "Theta Ori" and does not resolve the pattern "Eta Ori", because matching is case-sensitive |
| Overlay.LabelOf | annotate_fits.py:77-78 | the label is the first alias, or "Unknown" when `names` is missing or empty |
| Overlay.StyleFor | annotate_fits.py:82-94 | `ngc` and `ic` give cyan and `'o'`, sized by the radius when it is positive and 20 otherwise; `bright` gives yellow, `'*'`, 50; any other type gives red, `'x'`, 20; each colour is chosen exactly for its types |
| Overlay.MissingTypeIsRed | annotate_fits.py:79-94 | an annotation without a type is styled as an unknown object: red, `'x'`, size 20 |
| Overlay.ShapeFor | annotate_fits.py:96-101 | exactly one shape per annotation: a circle of the annotation's radius, edged in its colour, when the radius exceeds 5, and otherwise a point marker at its pixel position with the size, colour and marker of its style |
| Overlay.LabelFor | annotate_fits.py:103-104 | the label text is placed at (pixelx + 10, pixely + 10) in the annotation's colour |
| Overlay.AnnotationLayer | annotate_fits.py:74-105 | the annotation loop draws two primitives per annotation |
| Overlay.AnnotationLayerAt | annotate_fits.py:74-105 | annotation i contributes exactly its shape and then its label, in list order |
| Overlay.DrawAnnotations | annotate_fits.py:74-105 | the annotation loop issues exactly the annotation layer: two primitives per annotation, in list order |
| Overlay.LineColor | annotate_fits.py:111-112 | a constellation's line colour is its entry in the colour table, and "lime" when it has none |
| Overlay.DistancePair | annotate_fits.py:134-140 | the light-year distances are used exactly when both lookups, keyed by the catalogue patterns rather than the matched aliases, are present and non-zero |
| Overlay.EdgePrimitives | annotate_fits.py:118-150 | a pair draws something exactly when both endpoints resolved: first the segment between them in the line colour, then the separation label at the midpoint exactly when the pixel scale is truthy; never more than these two |
| Overlay.ResolvedCount | annotate_fits.py:114-124 | `lines_drawn` never exceeds the number of pairs of the constellation |
| Overlay.EdgeSegments | annotate_fits.py:118-124 | a pair draws one segment when both endpoints resolve and none otherwise |
| Overlay.SegmentsAreResolvedPairs | annotate_fits.py:114-124 | the number of segments a constellation draws equals the number of its pairs whose two endpoints resolve, which is `lines_drawn` |
| Overlay.ConstellationLayerShape | annotate_fits.py:114-150 | a constellation draws only segments in its colour and separation labels, and draws no separation label when the pixel scale is unknown |
| Overlay.DrawPair | annotate_fits.py:114-150 | one pass of the pair loop looks up both patterns, draws the pair's primitives, and reports a drawn line exactly when both endpoints resolve |
| Overlay.DrawEdge | annotate_fits.py:118-150 | the drawing calls for a looked-up pair are exactly the pair's primitives |
| Overlay.DrawConstellation | annotate_fits.py:110-150 | the pair loop draws the constellation's layer in pair order, and its `lines_drawn` equals the number of resolved pairs |
| Overlay.DrawConstellationLines | annotate_fits.py:109-153 | the constellation loop draws every constellation's layer in table order, each in its line colour, and reports each constellation's `lines_drawn` |
| Overlay.AnnotateImage | annotate_fits.py:74-153 | the overlay is every annotation's shape and label, then the lines of every catalogue constellation; each constellation's count is its number of resolved pairs |
| RequestEncoding.Utf8Char | client.py:93 | a character encodes to 1 to 4 bytes; ASCII characters encode to themselves, and every byte of a non-ASCII character is at least 128 |
| RequestEncoding.Utf8Append | client.py:93 | encoding a concatenation is concatenating the encodings |
| RequestEncoding.Boundary | client.py:74-75 | the boundary is 15 `=`, then the 19 drawn digits, then `==`; it is 36 characters long and holds only `=` and digits |
| RequestEncoding.MultipartContentType | client.py:76-77 | the Content-Type header is `multipart/form-data; boundary="…"` and names the same boundary |
| RequestEncoding.MultipartBody | client.py:77-92 | the body `data_pre + file + data_post` opens with the delimiter and headers of the `request-json` part and ends with the close delimiter `\n--boundary--\n` |
| RequestEncoding.MultipartRoundTrip | client.py:78-93 | a receiver that knows the boundary reads back from the body exactly the UTF-8 bytes of the JSON text and of the filename, and the file bytes, when the JSON text has no raw newline and the filename no double quote |
| RequestEncoding.QuoteByte | client.py:99 | `quote_plus` keeps a safe byte as its character, writes a space as `+`, and writes any other byte as `%` followed by two upper-case hex digits whose value is that byte |
| RequestEncoding.QuotePlusIsAscii | client.py:99-100 | the form text is ASCII, so its UTF-8 bytes are its characters |
| RequestEncoding.FormText | client.py:95-99 | the `urlencode` body starts with `request-json=` and is pure ASCII |
| RequestEncoding.UnquoteQuote | client.py:99 | `unquote_plus` undoes `quote_plus` on any bytes |
| RequestEncoding.FormRoundTrip | client.py:97-100 | form-decoding the `request-json` field of the form body gives back exactly the UTF-8 bytes of the JSON text |
| RequestEncoding.EncodeRequest | client.py:72-104 | with a file, the body is data_pre, then the file bytes, then data_post, and the one header names the boundary; without a file, the body is the form encoding of `request-json` and there are no headers |
| RequestEncoding.RequestCarriesJson | client.py:72-104 | in both branches a receiver recovers the UTF-8 bytes of the JSON text from the request body |
| NovaClient.Classify | client.py:106-124 | an HTTP error gives None; a reply that is not a dict raises AttributeError; status `error` raises RequestError with "server error message: " and the `errormessage`, or "(none)" when it is absent; any other reply is returned unchanged |
| NovaClient.WithSession | client.py:63-64 | with a session, the argument dict gains `session` and every other key keeps its value; without one, the dict is unchanged |
| NovaClient.LoginSession | client.py:126-133 | login succeeds exactly when a reply that is not an error has a truthy `session`, and then yields that session; a missing or empty session raises RequestError("no session in result"); a request failure propagates |
| NovaClient.Client.constructor | client.py:50-53 | a new client has no session and the given API URL |
| NovaClient.Client.SendRequest | client.py:58-124 | the caller's dict is updated in place with the session; the request goes to apiurl + service with the body built from json.dumps of the updated dict; the result is the classified reply |
| NovaClient.Client.Login | client.py:126-133 | sends the API key to `login`; stores the session exactly when login succeeds and leaves it unchanged otherwise |
| NovaClient.UploadOptionsDistinct | client.py:137-161 | the option table has 24 rows with distinct keys |
| NovaClient.UploadArgsFrom | client.py:135-169 | `_get_upload_args` sends at most one entry per row of the options table |
| NovaClient.UploadArgsKeys | client.py:135-169 | a key is emitted exactly when it is a key of the table that was supplied or has a default |
| NovaClient.UploadArgsValue | client.py:162-167 | each row emits the converted supplied value, else its default, else nothing |
| NovaClient.UploadArgsIgnoresOthers | client.py:162-167 | keyword arguments outside the table make no difference to the result |
| NovaClient.UploadArgsFails | client.py:162-164 | building the arguments fails exactly when a supplied value of a known key fails its conversion |
| NovaClient.UploadArgsErrSticks | client.py:162-164 | once a conversion has failed, the later rows do not change the outcome |
| NovaClient.GetUploadArgs | client.py:135-169 | the walk of `_get_upload_args` over the table builds exactly the upload arguments, or the first conversion error |
| NovaClient.CollectUploadArgs | client.py:136-169 | the walk that pops each supplied key, converts it and adds it (or adds the default) builds exactly the upload arguments for any table with distinct keys |
| NovaClient.RowsSent | client.py:162-167 | for every row, the key is sent exactly when it was supplied or has a default, and an unsupplied key with a default is sent with that default |
| NovaClient.PermissionsAlwaysSent | client.py:137-167 | the three permission keys are always sent: the supplied value, else `d`, `d` and `y`; every other key of the table is sent exactly when supplied |
| NovaClient.OnlyKnownKeysSent | client.py:137-167 | every key sent is one of the 24 keys of the table |
| NovaClient.FileArgs | client.py:179-183 | a file pair is sent exactly when a file name was given, and it holds that name and its contents |
| NovaClient.Client.Upload | client.py:177-187 | a conversion error or an unreadable file raises before anything is sent; otherwise the upload arguments, with the session, go to `upload` with the named file's bytes, and the reply is classified |
| NovaClient.Client.UrlUpload | client.py:171-175 | a conversion error raises; otherwise `url` followed by the upload arguments, with the session, goes to `url_upload` as a form, and the reply is classified |
| NovaClient.UrlUploadKeepsUrl | client.py:171-173 | the URL handed to `url_upload` always reaches the server, because no upload option is named `url` |
| NovaClient.ScaleOptions | client.py:300-313 | the scale selection adds only scale keys |
| NovaClient.ScaleSelection | client.py:300-313 | type `ul` is sent exactly when both bounds are set, or no estimate pair is set and one bound is; type `ev` exactly when the bounds are not both set and estimate and error are; the bounds go only with `ul`, each only when set, and estimate and error only with `ev` |
| NovaClient.ScaleOptionsDistinct | client.py:300-313 | the scale selection never names a key twice |
| NovaClient.ScaleBothBounds | client.py:300-303 | with both bounds set: both bounds and type `ul`, and no estimate |
| NovaClient.ScaleEstimate | client.py:304-307 | with an estimate and error but not both bounds: estimate, error and type `ev`, and no bounds |
| NovaClient.ScaleOneBound | client.py:308-313 | with one bound only: type `ul` and that bound |
| NovaClient.Permissions | client.py:296-299 | the runner's keywords start with the three permissions taken from its options |
| NovaClient.PermissionsKept | client.py:296-313 | the scale options never overwrite a permission |
| NovaClient.ScaleKept | client.py:300-313 | each scale key reads as the scale selection set it |
| NovaClient.OthersUnset | client.py:296-313 | before the pass-through loop nothing but permissions and scale keys is set |
| NovaClient.PassthroughDisjoint | client.py:315-321 | no pass-through option shares a key with the permissions, the scale keys or the parity |
| NovaClient.RunnerOptions.constructor | client.py:264-270 | the options start from the server URL and permission defaults, overridden by the given entries |
| NovaClient.RunnerOptions.ForceWait | client.py:292-294 | an upload that asks for a result file (wcs, kmz, newfits, corr, annotate) sets `wait`; nothing else changes |
| NovaClient.RunnerOptions.CopySetOptions | client.py:315-319 | each listed option that is not None is copied into the keywords, and every other keyword is unchanged |
| NovaClient.RunnerOptions.PermissionAndScaleKwargs | client.py:296-313 | the keywords before the pass-through loop: the permissions and the scale selection, with no pass-through key and no parity |
| NovaClient.RunnerOptions.AddParity | client.py:320-321 | a parity that is set is sent as `int(parity)`, and a failed conversion raises; other keywords are unchanged |
| NovaClient.RunnerOptions.UploadKwargs | client.py:296-321 | the keywords passed to upload: the permissions, the scale keys as the scale selection sets them, each pass-through option exactly when set, the parity as an int, and no other key; a failed parity conversion raises |
| NovaClient.SubmissionId | client.py:333-339 | the submission id is taken exactly from a `success` reply that has `subid`; any other status exits with -1 |
| NovaClient.RunnerOptions.RecordSubmission | client.py:333-339 | `sub_id` is recorded exactly when the upload succeeded, and the options are unchanged otherwise |
| NovaClient.DiscoveryStep | client.py:348-358 | a status reply whose `jobs` list is empty or all None asks for another poll; otherwise it yields the first non-None job id; a failing request or a non-dict reply raises |
| NovaClient.FirstNonNull | client.py:352-354 | the index of the first non-None item; all items before it are None |
| NovaClient.ScanJobs | client.py:351-355 | the inner `for j in jobs` loop yields a non-None job exactly when one exists, and then the first |
| NovaClient.DiscoveryPoll | client.py:348-358 | one pass of the discovery loop computes exactly the discovery step of its reply |
| NovaClient.DiscoverJob | client.py:347-359 | the discovery loop stops at its first reply that yields a job or raises, and keeps polling before it |
| NovaClient.DiscoveryWaitsForJob | client.py:347-359 | discovery returns a job only when it is not None, after replies that all asked for another poll |
| NovaClient.JobWaitStep | client.py:362-369 | status `success` ends the wait with success; `failure` exits with -1; any other status polls again; the wait never ends with success false |
| NovaClient.WaitForJob | client.py:361-370 | the job-wait loop stops at its first `success` or exit, and a finished wait is always a success |
| NovaClient.RunnerOptions.Wait | client.py:341-370 | no waiting without `wait`; exit without a submission or job id; with a job id it always waits on that job; with only a submission id it either stops in discovery or waits on the job discovery selected; `solved_id` is the only attribute changed, and only when discovery selects a job |
| Solver.Body | astrometry_solver.py:19 | `response.json()` gives the parsed body, and raises when the body is not JSON |
| Solver.LoginResult | astrometry_solver.py:18-24 | login succeeds exactly on a dict reply with status `success`, taking its `session` (None when absent); any other dict reply raises "Login failed" with the reply |
| Solver.UploadResult | astrometry_solver.py:41-47 | upload succeeds exactly on a dict reply with status `success`, returning its `subid` (None when absent); any other dict reply raises "Upload failed" with the reply |
| Solver.UploadFields | astrometry_solver.py:34 | the upload's request JSON has exactly four fields: the session and the permissions `d`, `d`, `y` |
| Solver.SubmissionStep | astrometry_solver.py:52-64 | a submission reply asks for another poll exactly when `processing_finished` is not truthy; once finished it returns the job list when it is non-empty and `jobs[0]` is not None, and `[]` otherwise |
| Solver.JobStep | astrometry_solver.py:71-80 | a job reply returns True exactly on `success` and False exactly on `failure`, and polls again on anything else |
| Solver.FetchIfOk | astrometry_solver.py:84-96 | `get_job_info` and `get_annotations` return the parsed body of an HTTP 200 reply, and None for any other status |
| Solver.UploadFlow | astrometry_solver.py:26-47 | `upload_image` posts at most a login and an upload; a session already held is kept; success needs a readable file and yields the upload's result; a failed login keeps the old session and raises its error |
| Solver.UploadLogsInFirst | astrometry_solver.py:26-47 | `upload_image` logs in first exactly when there is no session; a successful upload carries the session then in effect and the permissions `d`, `d`, `y`; it succeeds exactly when login (if needed), the file and the upload all succeed |
| Solver.AstrometrySolver.constructor | astrometry_solver.py:11-14 | a new solver has the API key, the base URL and no session |
| Solver.AstrometrySolver.Login | astrometry_solver.py:16-24 | posts the API key to `/login`; stores the session exactly on success and leaves it unchanged when login fails |
| Solver.AstrometrySolver.UploadImage | astrometry_solver.py:26-47 | the session afterwards, the posts sent and the result are exactly those of the upload flow |
| Solver.AstrometrySolver.WaitForSubmission | astrometry_solver.py:49-66 | the submission wait stops at its first finished reply (or exception), never before a reply with `processing_finished` truthy |
| Solver.AstrometrySolver.WaitForJob | astrometry_solver.py:68-82 | the job wait stops at its first `success` or `failure` reply (or exception) |
| Solver.AstrometrySolver.SolveImage | astrometry_solver.py:130-158 | one iteration of the driver loop ends as the per-image flow says: upload, submission wait, first job, job wait, calibration |
| Solver.ImageSpec | astrometry_solver.py:128-158 | one image of `main`'s loop: a session already held is kept; a failed login makes the image end in the error with the session unchanged; an image ends solved, unsolved or without jobs only after a readable file was uploaded successfully |
| Solver.AstrometrySolver.SolveImages | astrometry_solver.py:128-158 | the driver loop processes the images in order, as the per-image flow says, carrying the session from image to image |
| Solver.OnlyFirstJobTracked | astrometry_solver.py:128-156 | a solved or unsolved image is about `jobs[0]` of the finished submission; a calibration is taken only after the job succeeded; after a successful upload, an empty job list makes the image end without jobs, and exactly then; a first job that succeeds with a fetched calibration makes the image solved with that job and calibration |
| Solver.ErrorsDoNotStop | astrometry_solver.py:128-158 | an exception for one image does not stop the loop; only a polling loop that has not ended stops it |
| Solver.NullFirstJobDiffers | astrometry_solver.py:56-64 | on a finished submission with jobs `[None, j]`, the solver gives `[]` while the runner of client.py selects `j` |

## Left out

- HTTP itself, files and printing: `urlopen`, `requests`, the cookie jar, writing `err.html`, writing the calibration file, and every `print` are not modelled. Replies and file contents are parameters.
- `time.sleep` is not modelled. A `while True` polling loop runs over a finite sequence of replies and ends "still pending" when they run out.
- `json.dumps` and `json.loads` are parameters, not definitions. The serialiser is any function whose text has no raw newline.
- The `str`, `float`, `int`, `bool` and `list` conversions are a parameter that may fail.
- `random.choice` is not modelled. The 19 boundary digits are a parameter.
- The multipart round trip is proved only for a filename without a double quote, because the code does not escape one.
- Lone surrogates in strings are not modelled, because Dafny characters are Unicode scalar values.
- The shared mutable default `args={}` of `send_request` is not modelled. Each call's dict is an explicit `ArgDict` object.
- The overlay arithmetic is not computed: pixel distance, degrees, `np.radians` and the law of cosines (annotate_fits.py:128-145). The separation label records its inputs: endpoints, pixel scale, and the two distances when the " ly" suffix is written.
- The image display (annotate_fits.py:49-70), FITS/WCS loading and the pixel-scale computation (annotate_fits.py:20-38) are not modelled. The pixel scale is an `Option<real>` input.
- Annotations enter the overlay already decoded (annotate_fits.py:40-47). A missing `pixelx`/`pixely`, which raises KeyError in the source, is not modelled.
- A `radius` or `names` key set to JSON null is read as absent. The source raises TypeError on `radius > 5` (annotate_fits.py:80, 97) and on `for name in names` (constellation_data.py:163-164); the model draws a point marker and treats the annotation as nameless.
- Boundary collisions are not modelled: nothing rules out the random boundary occurring in the file bytes (client.py:73-92). The multipart round trip is proved only for a receiver that expects the close delimiter at the end of the body.
- `star1 and star2` in the source is read as "both found", because a found annotation is a non-empty dict.
- `ClientRunnerOptions.__getattr__` is modelled as a lookup that gives None for a missing attribute.
- The other commands of client.py are not part of this model: submission images, plots, job listings and result downloads.
- `run_client`'s `upload_xy` branch is not modelled, because it reads a FITS table through an unseen library.
- `main`'s preamble in astrometry_solver.py (the API-key check, RAW conversion and file-existence checks) is not modelled.
- `get_annotations` is modelled by the same `FetchIfOk`, but `main` never calls it.
- The solver's GET URLs (`/submissions/{id}`, `/jobs/{id}`) are not modelled. Each reply sequence stands for the replies to those URLs.
- Solver.SubmissionStep: for a finished reply whose `jobs` is not a list, the contract states no result.
- NovaClient.DiscoveryStep: for a `jobs` value that is a string or a dict, the contract states only when it polls again, not which id it selects.
- NovaClient.ScaleOptions: the function's own contract states only that it emits scale keys; the values are stated by `ScaleSelection`.
- Solver.AstrometrySolver.SolveImages: it stops at an image whose polling loop is still pending, where the program would go on polling for ever.
