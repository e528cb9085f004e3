/** The nova.astrometry.net API client: how a request is assembled from an
    argument dict and the session, how the server's reply is classified, the
    login rule, the upload-option table, and the command-line runner's
    option assembly and its two polling loops. */
module NovaClient {
  import opened PyValues
  import opened RequestEncoding

  const DEFAULT_URL := "https://nova.astrometry.net/api/"

  /** The text json.dumps produces: with its default escaping a newline inside
      a string is written as the two characters \ and n, so the text never
      holds a raw newline. */
  type JsonText = s: string | '\n' !in s

  /** The nineteen random digits a multipart boundary is made from. */
  predicate IsBoundaryKey(k: string) {
    |k| == 19 && forall i :: 0 <= i < |k| ==> IsDigit(k[i])
  }

  /** What urlopen gave back: an HTTP error status, or a body that json2python
      turned into a value (Null for a body that is not JSON at all). */
  datatype Reply = HttpFailure | Delivered(result: Json)

  /** The value send_request returns for a reply, or the exception it raises. */
  function Classify(reply: Reply): (r: Result<Json, PyError>)
    ensures reply.HttpFailure? ==> r == Ok(Null)
    ensures reply.Delivered? && !reply.result.Object? ==> r == Err(AttributeError)
    ensures reply.Delivered? && reply.result.Object? ==>
              (r.Ok? <==> Lookup(reply.result.fields, "status") != Some(Str("error")))
              && (r.Ok? ==> r.value == reply.result)
    ensures reply.Delivered? && reply.result.Object?
            && Lookup(reply.result.fields, "status") == Some(Str("error")) ==>
              match Lookup(reply.result.fields, "errormessage")
              case None => r == Err(RequestError("server error message: " + "(none)"))
              case Some(Str(m)) => r == Err(RequestError("server error message: " + m))
              case Some(_) => r == Err(TypeError)
  {
    match reply
    case HttpFailure => Ok(Null)
    case Delivered(result) =>
      match DictGet(result, "status", Null)
      case Err(e) => Err(e)
      case Ok(stat) =>
        if stat == Str("error") then
          match DictGet(result, "errormessage", Str("(none)"))
          case Ok(Str(m)) => Err(RequestError("server error message: " + m))
          case _ => Err(TypeError)
        else Ok(result)
  }

  /** The argument dict after send_request has added the session to it. */
  function WithSession(args: Dict, session: Json): (r: Dict)
    ensures session != Null ==> Lookup(r, "session") == Some(session)
    ensures forall k :: k != "session" ==> Lookup(r, k) == Lookup(args, k)
    ensures session == Null ==> r == args
    ensures Keys(r) == if session != Null then Keys(args) + {"session"} else Keys(args)
  {
    if session != Null then Put(args, "session", session) else args
  }

  /** The session login stores, or the exception login raises. */
  function LoginSession(reply: Reply): (r: Result<Json, PyError>)
    ensures r.Ok? ==> Truthy(r.value) && reply.Delivered? && reply.result.Object?
                      && Lookup(reply.result.fields, "session") == Some(r.value)
                      && Lookup(reply.result.fields, "status") != Some(Str("error"))
    ensures reply.Delivered? && reply.result.Object?
            && Lookup(reply.result.fields, "status") != Some(Str("error"))
            && !Truthy(Lookup(reply.result.fields, "session").GetOr(Null)) ==>
              r == Err(RequestError("no session in result"))
    ensures reply.Delivered? && reply.result.Object?
            && Lookup(reply.result.fields, "status") != Some(Str("error"))
            && Truthy(Lookup(reply.result.fields, "session").GetOr(Null)) ==>
              r == Ok(Lookup(reply.result.fields, "session").value)
    ensures reply.HttpFailure? ==> r == Err(AttributeError)
    ensures Classify(reply).Err? ==> r == Classify(reply)
  {
    match Classify(reply)
    case Err(e) => Err(e)
    case Ok(result) =>
      match DictGet(result, "session", Null)
      case Err(e) => Err(e)
      case Ok(sess) => if !Truthy(sess) then Err(RequestError("no session in result")) else Ok(sess)
  }

  /** A dict a caller hands to send_request, which updates it in place. */
  class ArgDict {
    var items: Dict

    constructor (items: Dict)
      ensures this.items == items
    {
      this.items := items;
    }
  }

  /** The Python builtins _get_upload_args converts supplied values with. */
  datatype Cast = ToStr | ToFloat | ToInt | ToBool | ToList

  /** The table of upload options: key, default, conversion. */
  const UPLOAD_OPTIONS: seq<(string, Option<string>, Cast)> := [
    ("allow_commercial_use", Some("d"), ToStr),
    ("allow_modifications", Some("d"), ToStr),
    ("publicly_visible", Some("y"), ToStr),
    ("scale_units", None, ToStr),
    ("scale_type", None, ToStr),
    ("scale_lower", None, ToFloat),
    ("scale_upper", None, ToFloat),
    ("scale_est", None, ToFloat),
    ("scale_err", None, ToFloat),
    ("center_ra", None, ToFloat),
    ("center_dec", None, ToFloat),
    ("parity", None, ToInt),
    ("radius", None, ToFloat),
    ("downsample_factor", None, ToInt),
    ("positional_error", None, ToFloat),
    ("tweak_order", None, ToInt),
    ("crpix_center", None, ToBool),
    ("invert", None, ToBool),
    ("use_sextractor", None, ToBool),
    ("image_width", None, ToInt),
    ("image_height", None, ToInt),
    ("x", None, ToList),
    ("y", None, ToList),
    ("album", None, ToStr)
  ]

  predicate DistinctOptionKeys(options: seq<(string, Option<string>, Cast)>) {
    forall i, j :: 0 <= i < j < |options| ==> options[i].0 != options[j].0
  }

  predicate IsOptionKey(options: seq<(string, Option<string>, Cast)>, k: string) {
    exists j :: 0 <= j < |options| && options[j].0 == k
  }

  /** The row of the table that holds key k, -1 for none. */
  function OptionRow(k: string): int {
    if k == "allow_commercial_use" then 0
    else if k == "allow_modifications" then 1
    else if k == "publicly_visible" then 2
    else if k == "scale_units" then 3
    else if k == "scale_type" then 4
    else if k == "scale_lower" then 5
    else if k == "scale_upper" then 6
    else if k == "scale_est" then 7
    else if k == "scale_err" then 8
    else if k == "center_ra" then 9
    else if k == "center_dec" then 10
    else if k == "parity" then 11
    else if k == "radius" then 12
    else if k == "downsample_factor" then 13
    else if k == "positional_error" then 14
    else if k == "tweak_order" then 15
    else if k == "crpix_center" then 16
    else if k == "invert" then 17
    else if k == "use_sextractor" then 18
    else if k == "image_width" then 19
    else if k == "image_height" then 20
    else if k == "x" then 21
    else if k == "y" then 22
    else if k == "album" then 23
    else -1
  }

  lemma OptionRowsLow()
    ensures forall i :: 0 <= i < 12 ==> OptionRow(UPLOAD_OPTIONS[i].0) == i
  {
  }

  lemma OptionRowsHigh()
    ensures forall i :: 12 <= i < 24 ==> OptionRow(UPLOAD_OPTIONS[i].0) == i
  {
  }

  /** The table has no key twice. */
  lemma UploadOptionsDistinct()
    ensures |UPLOAD_OPTIONS| == 24 && DistinctOptionKeys(UPLOAD_OPTIONS)
  {
    OptionRowsLow();
    OptionRowsHigh();
  }

  /** The upload arguments built from the first |options| rows of the table,
      each supplied value converted with `cast`, or the first conversion that
      fails. */
  function UploadArgsFrom(options: seq<(string, Option<string>, Cast)>, kwargs: Dict,
                          cast: (Cast, Json) -> Result<Json, PyError>): (r: Result<Dict, PyError>)
    ensures r.Ok? ==> |r.value| <= |options|
  {
    if options == [] then Ok([])
    else
      match UploadArgsFrom(options[..|options| - 1], kwargs, cast)
      case Err(e) => Err(e)
      case Ok(args) =>
        var (key, default, typ) := options[|options| - 1];
        if key in Keys(kwargs) then
          match cast(typ, Lookup(kwargs, key).value)
          case Err(e) => Err(e)
          case Ok(v) => Ok(Put(args, key, v))
        else if default.Some? then Ok(Put(args, key, Str(default.value)))
        else Ok(args)
  }

  /** Only keys of the table are emitted, and a key is emitted exactly when it
      was supplied or has a default. */
  lemma {:induction false} UploadArgsKeys(options: seq<(string, Option<string>, Cast)>, kwargs: Dict,
                                          cast: (Cast, Json) -> Result<Json, PyError>, k: string)
    requires UploadArgsFrom(options, kwargs, cast).Ok?
    ensures k in Keys(UploadArgsFrom(options, kwargs, cast).value) <==>
              exists j :: 0 <= j < |options| && options[j].0 == k && (k in Keys(kwargs) || options[j].1.Some?)
  {
    if options != [] {
      var init := options[..|options| - 1];
      UploadArgsKeys(init, kwargs, cast, k);
      var last := options[|options| - 1];
      if exists j :: 0 <= j < |options| && options[j].0 == k && (k in Keys(kwargs) || options[j].1.Some?) {
        var j :| 0 <= j < |options| && options[j].0 == k && (k in Keys(kwargs) || options[j].1.Some?);
        if j < |options| - 1 {
          assert init[j] == options[j];
        }
      }
      if exists j :: 0 <= j < |init| && init[j].0 == k && (k in Keys(kwargs) || init[j].1.Some?) {
        var j :| 0 <= j < |init| && init[j].0 == k && (k in Keys(kwargs) || init[j].1.Some?);
        assert options[j] == init[j];
      }
    }
  }

  /** The value emitted for row j: the converted supplied value, else the
      default, else nothing. */
  lemma {:induction false} UploadArgsValue(options: seq<(string, Option<string>, Cast)>, kwargs: Dict,
                                           cast: (Cast, Json) -> Result<Json, PyError>, j: nat)
    requires DistinctOptionKeys(options) && j < |options|
    requires UploadArgsFrom(options, kwargs, cast).Ok?
    ensures var (key, default, typ) := options[j];
            var args := UploadArgsFrom(options, kwargs, cast).value;
            if key in Keys(kwargs) then
              cast(typ, Lookup(kwargs, key).value).Ok?
              && Lookup(args, key) == Some(cast(typ, Lookup(kwargs, key).value).value)
            else if default.Some? then Lookup(args, key) == Some(Str(default.value))
            else Lookup(args, key) == None
  {
    var init := options[..|options| - 1];
    assert DistinctOptionKeys(init) by {
      forall a, b | 0 <= a < b < |init| ensures init[a].0 != init[b].0 {
        assert init[a] == options[a] && init[b] == options[b];
      }
    }
    if j < |options| - 1 {
      UploadArgsValue(init, kwargs, cast, j);
      assert init[j] == options[j];
    } else if init != [] {
      UploadArgsKeys(init, kwargs, cast, options[j].0);
      assert forall i :: 0 <= i < |init| ==> init[i].0 != options[j].0;
    }
  }

  /** Keywords that are not in the table make no difference. */
  lemma {:induction false} UploadArgsIgnoresOthers(options: seq<(string, Option<string>, Cast)>, kw1: Dict, kw2: Dict,
                                                   cast: (Cast, Json) -> Result<Json, PyError>)
    requires forall j :: 0 <= j < |options| ==> Lookup(kw1, options[j].0) == Lookup(kw2, options[j].0)
    ensures UploadArgsFrom(options, kw1, cast) == UploadArgsFrom(options, kw2, cast)
  {
    if options != [] {
      var init := options[..|options| - 1];
      forall j | 0 <= j < |init| ensures Lookup(kw1, init[j].0) == Lookup(kw2, init[j].0) {
        assert init[j] == options[j];
      }
      UploadArgsIgnoresOthers(init, kw1, kw2, cast);
      var key := options[|options| - 1].0;
      assert Lookup(kw1, key) == Lookup(kw2, key);
    }
  }

  /** The arguments are refused exactly when some supplied value of a known
      key fails its conversion. */
  lemma {:induction false} UploadArgsFails(options: seq<(string, Option<string>, Cast)>, kwargs: Dict,
                                           cast: (Cast, Json) -> Result<Json, PyError>)
    ensures UploadArgsFrom(options, kwargs, cast).Err? <==>
              exists j :: 0 <= j < |options| && options[j].0 in Keys(kwargs)
                          && cast(options[j].2, Lookup(kwargs, options[j].0).value).Err?
  {
    if options != [] {
      var init := options[..|options| - 1];
      UploadArgsFails(init, kwargs, cast);
      if exists j :: 0 <= j < |init| && init[j].0 in Keys(kwargs)
                     && cast(init[j].2, Lookup(kwargs, init[j].0).value).Err? {
        var j :| 0 <= j < |init| && init[j].0 in Keys(kwargs)
                 && cast(init[j].2, Lookup(kwargs, init[j].0).value).Err?;
        assert options[j] == init[j];
      }
      if exists j :: 0 <= j < |options| && options[j].0 in Keys(kwargs)
                     && cast(options[j].2, Lookup(kwargs, options[j].0).value).Err? {
        var j :| 0 <= j < |options| && options[j].0 in Keys(kwargs)
                 && cast(options[j].2, Lookup(kwargs, options[j].0).value).Err?;
        if j < |init| {
          assert init[j] == options[j];
        }
      }
    }
  }

  /** Once a conversion has failed, the later rows do not change the outcome. */
  lemma {:induction false} UploadArgsErrSticks(options: seq<(string, Option<string>, Cast)>, kwargs: Dict,
                                               cast: (Cast, Json) -> Result<Json, PyError>, n: nat)
    requires n <= |options| && UploadArgsFrom(options[..n], kwargs, cast).Err?
    ensures UploadArgsFrom(options, kwargs, cast) == UploadArgsFrom(options[..n], kwargs, cast)
    decreases |options| - n
  {
    if n < |options| {
      var init := options[..|options| - 1];
      assert init[..n] == options[..n];
      UploadArgsErrSticks(init, kwargs, cast, n);
    } else {
      assert options[..n] == options;
    }
  }

  /** _get_upload_args: walks the table, popping each supplied key from the
      keywords, converting it and adding it, or adding the default. */
  method GetUploadArgs(kwargs: Dict, cast: (Cast, Json) -> Result<Json, PyError>)
    returns (r: Result<Dict, PyError>)
    ensures r == UploadArgsFrom(UPLOAD_OPTIONS, kwargs, cast)
  {
    UploadOptionsDistinct();
    r := CollectUploadArgs(UPLOAD_OPTIONS, kwargs, cast);
  }

  /** The walk of _get_upload_args over a table with distinct keys. */
  method CollectUploadArgs(options: seq<(string, Option<string>, Cast)>, kwargs: Dict,
                           cast: (Cast, Json) -> Result<Json, PyError>)
    returns (r: Result<Dict, PyError>)
    requires DistinctOptionKeys(options)
    ensures r == UploadArgsFrom(options, kwargs, cast)
  {
    var remaining := kwargs;
    var args: Dict := [];
    var i := 0;
    while i < |options|
      invariant 0 <= i <= |options|
      invariant UploadArgsFrom(options[..i], kwargs, cast) == Ok(args)
      invariant forall j :: i <= j < |options| ==>
                  Lookup(remaining, options[j].0) == Lookup(kwargs, options[j].0)
    {
      var (key, default, typ) := options[i];
      assert options[..i + 1][..i] == options[..i];
      if key in Keys(remaining) {
        var val := Lookup(remaining, key).value;
        remaining := Remove(remaining, key);
        var converted := cast(typ, val);
        if converted.Err? {
          assert UploadArgsFrom(options[..i + 1], kwargs, cast) == Err(converted.error);
          UploadArgsErrSticks(options, kwargs, cast, i + 1);
          return Err(converted.error);
        }
        args := Put(args, key, converted.value);
      } else if default.Some? {
        args := Put(args, key, Str(default.value));
      }
      i := i + 1;
    }
    assert options[..i] == options;
    r := Ok(args);
  }

  /** Per row of a table with distinct keys: a row with a default is always
      sent, with the default when not supplied; a row without one is sent
      exactly when supplied. */
  lemma RowsSent(options: seq<(string, Option<string>, Cast)>, kwargs: Dict,
                 cast: (Cast, Json) -> Result<Json, PyError>)
    requires DistinctOptionKeys(options)
    requires UploadArgsFrom(options, kwargs, cast).Ok?
    ensures var args := UploadArgsFrom(options, kwargs, cast).value;
            forall j :: 0 <= j < |options| ==>
              (options[j].0 in Keys(args) <==> options[j].0 in Keys(kwargs) || options[j].1.Some?)
              && (options[j].0 !in Keys(kwargs) && options[j].1.Some? ==>
                    Lookup(args, options[j].0) == Some(Str(options[j].1.value)))
  {
    forall j | 0 <= j < |options| {
      UploadArgsValue(options, kwargs, cast, j);
    }
  }

  /** The three permission keys are always sent: the supplied value, else
      'd', 'd' and 'y'; every other key of the table only when supplied. */
  lemma PermissionsAlwaysSent(kwargs: Dict, cast: (Cast, Json) -> Result<Json, PyError>)
    requires UploadArgsFrom(UPLOAD_OPTIONS, kwargs, cast).Ok?
    ensures var args := UploadArgsFrom(UPLOAD_OPTIONS, kwargs, cast).value;
            ("allow_commercial_use" !in Keys(kwargs) ==> Lookup(args, "allow_commercial_use") == Some(Str("d")))
            && ("allow_modifications" !in Keys(kwargs) ==> Lookup(args, "allow_modifications") == Some(Str("d")))
            && ("publicly_visible" !in Keys(kwargs) ==> Lookup(args, "publicly_visible") == Some(Str("y")))
            && "allow_commercial_use" in Keys(args) && "allow_modifications" in Keys(args)
            && "publicly_visible" in Keys(args)
    ensures var args := UploadArgsFrom(UPLOAD_OPTIONS, kwargs, cast).value;
            forall j :: 3 <= j < |UPLOAD_OPTIONS| ==>
              (UPLOAD_OPTIONS[j].0 in Keys(args) <==> UPLOAD_OPTIONS[j].0 in Keys(kwargs))
  {
    UploadOptionsDistinct();
    assert UPLOAD_OPTIONS[0] == ("allow_commercial_use", Some("d"), ToStr);
    assert UPLOAD_OPTIONS[1] == ("allow_modifications", Some("d"), ToStr);
    assert UPLOAD_OPTIONS[2] == ("publicly_visible", Some("y"), ToStr);
    assert forall j :: 3 <= j < |UPLOAD_OPTIONS| ==> UPLOAD_OPTIONS[j].1.None?;
    RowsSent(UPLOAD_OPTIONS, kwargs, cast);
  }

  /** Every key sent is one of the 24 keys of the table. */
  lemma OnlyKnownKeysSent(kwargs: Dict, cast: (Cast, Json) -> Result<Json, PyError>, k: string)
    requires UploadArgsFrom(UPLOAD_OPTIONS, kwargs, cast).Ok?
    requires k in Keys(UploadArgsFrom(UPLOAD_OPTIONS, kwargs, cast).value)
    ensures IsOptionKey(UPLOAD_OPTIONS, k)
  {
    UploadArgsKeys(UPLOAD_OPTIONS, kwargs, cast, k);
  }

  /** The (filename, contents) pair upload sends, if a file was named. */
  function FileArgs(fn: Option<string>, contents: Option<seq<byte>>): (r: Option<(string, seq<byte>)>)
    requires fn.Some? ==> contents.Some?
    ensures r.Some? <==> fn.Some?
    ensures r.Some? ==> r.value == (fn.value, contents.value)
  {
    if fn.Some? then Some((fn.value, contents.value)) else None
  }

  /** The client of the web API; login stores the session every later request carries. */
  class Client {
    var session: Json
    const apiurl: string

    constructor (apiurl: string)
      ensures session == Null && this.apiurl == apiurl
    {
      session := Null;
      this.apiurl := apiurl;
    }

    /** send_request: adds the session to the caller's dict, encodes it as
        JSON in a multipart body (with a file) or a form body (without), and
        classifies the reply. */
    method SendRequest(service: string, args: ArgDict, fileArgs: Option<(string, seq<byte>)>,
                       boundaryKey: string, dumps: Dict -> JsonText, reply: Reply)
      returns (request: Request, result: Result<Json, PyError>)
      requires fileArgs.Some? ==> IsBoundaryKey(boundaryKey)
      modifies args
      ensures args.items == WithSession(old(args.items), session)
      ensures request == EncodeRequest(apiurl + service, dumps(args.items), fileArgs, boundaryKey)
      ensures result == Classify(reply)
    {
      if session != Null {
        args.items := Put(args.items, "session", session);
      }
      var json := dumps(args.items);
      var url := apiurl + service;
      request := EncodeRequest(url, json, fileArgs, boundaryKey);
      result := Classify(reply);
    }

    /** login: sends the API key and keeps the session the server returns. */
    method Login(apikey: string, dumps: Dict -> JsonText, reply: Reply)
      returns (request: Request, outcome: Result<(), PyError>)
      modifies this
      ensures request == EncodeRequest(apiurl + "login", dumps(WithSession([("apikey", Str(apikey))], old(session))), None, "")
      ensures LoginSession(reply).Ok? ==> session == LoginSession(reply).value && outcome == Ok(())
      ensures LoginSession(reply).Err? ==> session == old(session) && outcome == Err(LoginSession(reply).error)
    {
      var args := new ArgDict([("apikey", Str(apikey))]);
      var result;
      request, result := SendRequest("login", args, None, "", dumps, reply);
      if result.Err? {
        return request, Err(result.error);
      }
      var sess := DictGet(result.value, "session", Null);
      if sess.Err? {
        return request, Err(sess.error);
      }
      if !Truthy(sess.value) {
        return request, Err(RequestError("no session in result"));
      }
      session := sess.value;
      outcome := Ok(());
    }

    /** upload: the upload arguments, the named file's contents (None when it
        cannot be read), and the request sent to the 'upload' service. */
    method Upload(fn: Option<string>, kwargs: Dict, cast: (Cast, Json) -> Result<Json, PyError>,
                  contents: Option<seq<byte>>, boundaryKey: string, dumps: Dict -> JsonText, reply: Reply)
      returns (request: Option<Request>, result: Result<Json, PyError>)
      requires fn.Some? ==> IsBoundaryKey(boundaryKey)
      ensures UploadArgsFrom(UPLOAD_OPTIONS, kwargs, cast).Err? ==>
                request == None && result == Err(UploadArgsFrom(UPLOAD_OPTIONS, kwargs, cast).error)
      ensures UploadArgsFrom(UPLOAD_OPTIONS, kwargs, cast).Ok? && fn.Some? && contents.None? ==>
                request == None && result == Err(IOError)
      ensures UploadArgsFrom(UPLOAD_OPTIONS, kwargs, cast).Ok? && (fn.Some? ==> contents.Some?) ==>
                request == Some(EncodeRequest(apiurl + "upload",
                                              dumps(WithSession(UploadArgsFrom(UPLOAD_OPTIONS, kwargs, cast).value, session)),
                                              FileArgs(fn, contents), boundaryKey))
                && result == Classify(reply)
    {
      var uploadArgs := GetUploadArgs(kwargs, cast);
      if uploadArgs.Err? {
        return None, Err(uploadArgs.error);
      }
      if fn.Some? && contents.None? {
        return None, Err(IOError);
      }
      var args := new ArgDict(uploadArgs.value);
      var sent;
      sent, result := SendRequest("upload", args, FileArgs(fn, contents), boundaryKey, dumps, reply);
      request := Some(sent);
    }

    /** url_upload: the upload arguments after a 'url' entry, sent to the
        'url_upload' service as a form. */
    method UrlUpload(url: string, kwargs: Dict, cast: (Cast, Json) -> Result<Json, PyError>,
                     dumps: Dict -> JsonText, reply: Reply)
      returns (request: Option<Request>, result: Result<Json, PyError>)
      ensures UploadArgsFrom(UPLOAD_OPTIONS, kwargs, cast).Err? ==>
                request == None && result == Err(UploadArgsFrom(UPLOAD_OPTIONS, kwargs, cast).error)
      ensures UploadArgsFrom(UPLOAD_OPTIONS, kwargs, cast).Ok? ==>
                request == Some(EncodeRequest(apiurl + "url_upload",
                                              dumps(WithSession(Update([("url", Str(url))], UploadArgsFrom(UPLOAD_OPTIONS, kwargs, cast).value), session)),
                                              None, ""))
                && result == Classify(reply)
    {
      var uploadArgs := GetUploadArgs(kwargs, cast);
      if uploadArgs.Err? {
        return None, Err(uploadArgs.error);
      }
      var args := new ArgDict(Update([("url", Str(url))], uploadArgs.value));
      var sent;
      sent, result := SendRequest("url_upload", args, None, "", dumps, reply);
      request := Some(sent);
    }
  }

  /** The url given to url_upload always reaches the server: no upload option
      is called 'url'. */
  lemma UrlUploadKeepsUrl(url: string, kwargs: Dict, cast: (Cast, Json) -> Result<Json, PyError>, session: Json)
    requires UploadArgsFrom(UPLOAD_OPTIONS, kwargs, cast).Ok?
    ensures Lookup(WithSession(Update([("url", Str(url))], UploadArgsFrom(UPLOAD_OPTIONS, kwargs, cast).value), session), "url")
            == Some(Str(url))
  {
    var args := UploadArgsFrom(UPLOAD_OPTIONS, kwargs, cast).value;
    UploadArgsKeys(UPLOAD_OPTIONS, kwargs, cast, "url");
    assert "url" !in Keys(args);
  }

  // ---------------------------------------------------------------------
  // The command-line runner

  /** The scale options the runner adds: both bounds with type 'ul', else an
      estimate and error with type 'ev', else type 'ul' with whichever single
      bound is set. */
  function ScaleOptions(lower: Json, upper: Json, est: Json, err: Json): (r: Dict)
    ensures forall k :: k in Keys(r) ==> IsScaleKey(k)
  {
    if Truthy(lower) && Truthy(upper) then
      KeysTriple(("scale_lower", lower), ("scale_upper", upper), ("scale_type", Str("ul")));
      [("scale_lower", lower), ("scale_upper", upper), ("scale_type", Str("ul"))]
    else if Truthy(est) && Truthy(err) then
      KeysTriple(("scale_est", est), ("scale_err", err), ("scale_type", Str("ev")));
      [("scale_est", est), ("scale_err", err), ("scale_type", Str("ev"))]
    else if Truthy(lower) || Truthy(upper) then
      var r := [("scale_type", Str("ul"))]
               + (if Truthy(lower) then [("scale_lower", lower)] else [])
               + (if Truthy(upper) then [("scale_upper", upper)] else []);
      var bound := if Truthy(lower) then ("scale_lower", lower) else ("scale_upper", upper);
      assert r == [("scale_type", Str("ul")), bound];
      KeysPair(("scale_type", Str("ul")), bound);
      r
    else []
  }

  /** Which scale type is sent, and that the bounds go only with 'ul' and
      the estimate and error only with 'ev'. */
  lemma ScaleSelection(lower: Json, upper: Json, est: Json, err: Json)
    ensures var r := ScaleOptions(lower, upper, est, err);
            Lookup(r, "scale_type") == Some(Str("ul")) <==>
              (Truthy(lower) && Truthy(upper)) || (!(Truthy(est) && Truthy(err)) && (Truthy(lower) || Truthy(upper)))
    ensures var r := ScaleOptions(lower, upper, est, err);
            Lookup(r, "scale_type") == Some(Str("ev")) <==>
              !(Truthy(lower) && Truthy(upper)) && Truthy(est) && Truthy(err)
    ensures var r := ScaleOptions(lower, upper, est, err);
            Lookup(r, "scale_type") == None <==> !Truthy(lower) && !Truthy(upper) && !(Truthy(est) && Truthy(err))
    ensures var r := ScaleOptions(lower, upper, est, err);
            Lookup(r, "scale_lower") == if Truthy(lower) && Lookup(r, "scale_type") == Some(Str("ul")) then Some(lower) else None
    ensures var r := ScaleOptions(lower, upper, est, err);
            Lookup(r, "scale_upper") == if Truthy(upper) && Lookup(r, "scale_type") == Some(Str("ul")) then Some(upper) else None
    ensures var r := ScaleOptions(lower, upper, est, err);
            Lookup(r, "scale_est") == if Lookup(r, "scale_type") == Some(Str("ev")) then Some(est) else None
    ensures var r := ScaleOptions(lower, upper, est, err);
            Lookup(r, "scale_err") == if Lookup(r, "scale_type") == Some(Str("ev")) then Some(err) else None
  {
    if Truthy(lower) && Truthy(upper) {
      ScaleBothBounds(lower, upper, est, err);
    } else if Truthy(est) && Truthy(err) {
      ScaleEstimate(lower, upper, est, err);
    } else if Truthy(lower) || Truthy(upper) {
      ScaleOneBound(lower, upper, est, err);
    }
  }

  lemma ScaleOptionsDistinct(lower: Json, upper: Json, est: Json, err: Json)
    ensures DistinctKeys(ScaleOptions(lower, upper, est, err))
  {
    if Truthy(lower) && Truthy(upper) {
      ScaleBothBounds(lower, upper, est, err);
    } else if Truthy(est) && Truthy(err) {
      ScaleEstimate(lower, upper, est, err);
    } else if Truthy(lower) || Truthy(upper) {
      ScaleOneBound(lower, upper, est, err);
    }
  }

  lemma ScaleBothBounds(lower: Json, upper: Json, est: Json, err: Json)
    requires Truthy(lower) && Truthy(upper)
    ensures var r := ScaleOptions(lower, upper, est, err);
            Lookup(r, "scale_type") == Some(Str("ul"))
            && Lookup(r, "scale_lower") == Some(lower) && Lookup(r, "scale_upper") == Some(upper)
            && Lookup(r, "scale_est") == None && Lookup(r, "scale_err") == None
            && DistinctKeys(r)
  {
    LookupTriple(("scale_lower", lower), ("scale_upper", upper), ("scale_type", Str("ul")), "scale_type");
    LookupTriple(("scale_lower", lower), ("scale_upper", upper), ("scale_type", Str("ul")), "scale_lower");
    LookupTriple(("scale_lower", lower), ("scale_upper", upper), ("scale_type", Str("ul")), "scale_upper");
    LookupTriple(("scale_lower", lower), ("scale_upper", upper), ("scale_type", Str("ul")), "scale_est");
    LookupTriple(("scale_lower", lower), ("scale_upper", upper), ("scale_type", Str("ul")), "scale_err");
  }

  lemma ScaleEstimate(lower: Json, upper: Json, est: Json, err: Json)
    requires !(Truthy(lower) && Truthy(upper)) && Truthy(est) && Truthy(err)
    ensures var r := ScaleOptions(lower, upper, est, err);
            Lookup(r, "scale_type") == Some(Str("ev"))
            && Lookup(r, "scale_lower") == None && Lookup(r, "scale_upper") == None
            && Lookup(r, "scale_est") == Some(est) && Lookup(r, "scale_err") == Some(err)
            && DistinctKeys(r)
  {
    LookupTriple(("scale_est", est), ("scale_err", err), ("scale_type", Str("ev")), "scale_type");
    LookupTriple(("scale_est", est), ("scale_err", err), ("scale_type", Str("ev")), "scale_lower");
    LookupTriple(("scale_est", est), ("scale_err", err), ("scale_type", Str("ev")), "scale_upper");
    LookupTriple(("scale_est", est), ("scale_err", err), ("scale_type", Str("ev")), "scale_est");
    LookupTriple(("scale_est", est), ("scale_err", err), ("scale_type", Str("ev")), "scale_err");
  }

  lemma ScaleOneBound(lower: Json, upper: Json, est: Json, err: Json)
    requires !(Truthy(lower) && Truthy(upper)) && !(Truthy(est) && Truthy(err)) && (Truthy(lower) || Truthy(upper))
    ensures var r := ScaleOptions(lower, upper, est, err);
            Lookup(r, "scale_type") == Some(Str("ul"))
            && Lookup(r, "scale_lower") == (if Truthy(lower) then Some(lower) else None)
            && Lookup(r, "scale_upper") == (if Truthy(upper) then Some(upper) else None)
            && Lookup(r, "scale_est") == None && Lookup(r, "scale_err") == None
            && DistinctKeys(r)
  {
    var bound := if Truthy(lower) then ("scale_lower", lower) else ("scale_upper", upper);
    assert ScaleOptions(lower, upper, est, err) == [("scale_type", Str("ul")), bound];
    LookupPair(("scale_type", Str("ul")), bound, "scale_type");
    LookupPair(("scale_type", Str("ul")), bound, "scale_lower");
    LookupPair(("scale_type", Str("ul")), bound, "scale_upper");
    LookupPair(("scale_type", Str("ul")), bound, "scale_est");
    LookupPair(("scale_type", Str("ul")), bound, "scale_err");
  }

  /** Options copied to the upload keywords whenever they are set. */
  const PASSTHROUGH_OPTIONS: seq<string> := [
    "scale_units", "center_ra", "center_dec", "radius",
    "downsample_factor", "positional_error", "tweak_order", "crpix_center",
    "album", "invert", "use_sextractor"
  ]

  /** The attributes a ClientRunnerOptions starts with. */
  const RUNNER_DEFAULTS: Dict := [
    ("server", Str(DEFAULT_URL)), ("public", Str("y")), ("allow_mod", Str("d")), ("allow_commercial", Str("d"))
  ]

  /** What the runner does after an upload: the submission id on a 'success'
      reply; exit status -1 for any other status; a KeyError or TypeError
      when the reply lacks the fields or is not a dict. */
  function SubmissionId(upres: Json): (r: Result<Json, PyError>)
    ensures r.Ok? <==> upres.Object? && Lookup(upres.fields, "status") == Some(Str("success"))
                       && "subid" in Keys(upres.fields)
    ensures r.Ok? ==> Lookup(upres.fields, "subid") == Some(r.value)
    ensures (upres.Object? && Lookup(upres.fields, "status").Some?
             && Lookup(upres.fields, "status") != Some(Str("success"))) ==> r == Err(SystemExit(-1))
  {
    match GetItem(upres, "status")
    case Err(e) => Err(e)
    case Ok(stat) =>
      if stat != Str("success") then Err(SystemExit(-1))
      else GetItem(upres, "subid")
  }

  /** One pass of the job-discovery loop: the submission status reply gives
      a job id (the first non-null entry of its 'jobs'), asks for another
      poll, or raises. */
  function DiscoveryStep(reply: Reply): (s: Step<Json>)
    ensures Classify(reply).Err? ==> s == Failed(Classify(reply).error)
    ensures Classify(reply).Ok? ==>
              match DictGet(Classify(reply).value, "jobs", Array([]))
              case Err(e) => s == Failed(e)
              case Ok(Array(items)) =>
                (s.Pending? <==> forall i :: 0 <= i < |items| ==> items[i] == Null)
                && (s.Done? ==> exists i :: 0 <= i < |items| && items[i] == s.value && s.value != Null
                                            && forall i' :: 0 <= i' < i ==> items[i'] == Null)
                && !s.Failed?
              case Ok(Str(t)) => (s.Pending? <==> t == []) && !s.Failed?
              case Ok(Object(f)) => (s.Pending? <==> f == []) && !s.Failed?
              case Ok(_) => s == Failed(TypeError)
  {
    match Classify(reply)
    case Err(e) => Failed(e)
    case Ok(stat) =>
      match DictGet(stat, "jobs", Array([]))
      case Err(e) => Failed(e)
      case Ok(jobs) =>
        match jobs
        case Array(items) =>
          var i := FirstNonNull(items);
          if i < |items| then Done(items[i]) else Pending
        case Str(t) => if t == [] then Pending else Done(Str([t[0]]))
        case Object(f) => if f == [] then Pending else Done(Str(f[0].0))
        case _ => Failed(TypeError)
  }

  /** The index of the first non-null item, or the length when all are null. */
  function FirstNonNull(items: seq<Json>): (i: nat)
    ensures i <= |items|
    ensures forall i' :: 0 <= i' < i ==> items[i'] == Null
    ensures i < |items| ==> items[i] != Null
  {
    if items == [] then 0
    else if items[0] != Null then 0
    else 1 + FirstNonNull(items[1..])
  }

  ghost function DiscoverySteps(replies: seq<Reply>): (steps: seq<Step<Json>>)
    ensures |steps| == |replies|
    ensures forall i :: 0 <= i < |replies| ==> steps[i] == DiscoveryStep(replies[i])
  {
    seq(|replies|, i requires 0 <= i < |replies| => DiscoveryStep(replies[i]))
  }

  /** One pass of the job-wait loop: 'success' ends it, 'failure' exits with
      status -1, anything else polls again. */
  function JobWaitStep(reply: Reply): (s: Step<bool>)
    ensures Classify(reply).Err? ==> s == Failed(Classify(reply).error)
    ensures Classify(reply).Ok? && !Classify(reply).value.Object? ==> s == Failed(AttributeError)
    ensures Classify(reply).Ok? && Classify(reply).value.Object? ==>
              var status := Lookup(Classify(reply).value.fields, "status");
              (s == Done(true) <==> status == Some(Str("success")))
              && (s == Failed(SystemExit(-1)) <==> status == Some(Str("failure")))
              && (s.Pending? <==> status != Some(Str("success")) && status != Some(Str("failure")))
    ensures s != Done(false)
  {
    match Classify(reply)
    case Err(e) => Failed(e)
    case Ok(stat) =>
      match DictGet(stat, "status", Str(""))
      case Err(e) => Failed(e)
      case Ok(status) =>
        if status == Str("success") then Done(true)
        else if status == Str("failure") then Failed(SystemExit(-1))
        else Pending
  }

  ghost function JobWaitSteps(replies: seq<Reply>): (steps: seq<Step<bool>>)
    ensures |steps| == |replies|
    ensures forall i :: 0 <= i < |replies| ==> steps[i] == JobWaitStep(replies[i])
  {
    seq(|replies|, i requires 0 <= i < |replies| => JobWaitStep(replies[i]))
  }

  /** The inner `for j in jobs` loop: the first non-null item, or the last
      item (null) when there is none. */
  method ScanJobs(items: seq<Json>) returns (j: Json)
    requires items != []
    ensures j != Null <==> exists i :: 0 <= i < |items| && items[i] != Null
    ensures j != Null ==> j == items[FirstNonNull(items)]
  {
    var i := 0;
    j := items[0];
    while i < |items|
      invariant 0 <= i <= |items|
      invariant forall i' :: 0 <= i' < i ==> items[i'] == Null
      invariant i > 0 ==> j == items[i - 1]
    {
      j := items[i];
      if j != Null {
        FirstNonNullAt(items, i);
        return;
      }
      i := i + 1;
    }
  }

  lemma {:induction false} FirstNonNullAt(items: seq<Json>, i: nat)
    requires i < |items| && items[i] != Null
    requires forall i' :: 0 <= i' < i ==> items[i'] == Null
    ensures FirstNonNull(items) == i
  {
    if i > 0 {
      FirstNonNullAt(items[1..], i - 1);
    }
  }

  /** One pass of the job-discovery loop over a submission-status reply. */
  method DiscoveryPoll(reply: Reply) returns (s: Step<Json>)
    ensures s == DiscoveryStep(reply)
  {
    var stat := Classify(reply);
    if stat.Err? {
      return Failed(stat.error);
    }
    var jobs := DictGet(stat.value, "jobs", Array([]));
    if jobs.Err? {
      return Failed(jobs.error);
    }
    s := Pending;
    match jobs.value {
      case Array(items) =>
        if |items| > 0 {
          var j := ScanJobs(items);
          if j != Null {
            s := Done(j);
          }
        }
      case Str(t) =>
        if |t| > 0 {
          s := Done(Str([t[0]]));
        }
      case Object(f) =>
        if |f| > 0 {
          s := Done(Str(f[0].0));
        }
      case _ =>
        s := Failed(TypeError);
    }
  }

  /** The job-discovery loop over successive submission-status replies. */
  method DiscoverJob(replies: seq<Reply>) returns (p: Poll<Json>)
    ensures FirstDecisive(DiscoverySteps(replies), p)
  {
    var n := 0;
    while n < |replies|
      invariant 0 <= n <= |replies|
      invariant AllPending(DiscoverySteps(replies)[..n])
    {
      var step := DiscoveryPoll(replies[n]);
      match step {
        case Done(j) => return Finished(j, n + 1);
        case Failed(e) => return Aborted(e, n + 1);
        case Pending =>
      }
      assert DiscoverySteps(replies)[..n + 1] == DiscoverySteps(replies)[..n] + [step];
      n := n + 1;
    }
    assert DiscoverySteps(replies)[..n] == DiscoverySteps(replies);
    p := StillPending;
  }

  /** The job-wait loop over successive job-status replies. */
  method WaitForJob(replies: seq<Reply>) returns (p: Poll<bool>)
    ensures FirstDecisive(JobWaitSteps(replies), p)
    ensures p.Finished? ==> p.value
  {
    var n := 0;
    while n < |replies|
      invariant 0 <= n <= |replies|
      invariant AllPending(JobWaitSteps(replies)[..n])
    {
      var step := JobWaitStep(replies[n]);
      var stat := Classify(replies[n]);
      if stat.Err? {
        return Aborted(stat.error, n + 1);
      }
      var status := DictGet(stat.value, "status", Str(""));
      if status.Err? {
        return Aborted(status.error, n + 1);
      }
      if status.value == Str("success") {
        var success := GetItem(stat.value, "status") == Ok(Str("success"));
        return Finished(success, n + 1);
      } else if status.value == Str("failure") {
        return Aborted(SystemExit(-1), n + 1);
      }
      assert JobWaitSteps(replies)[..n + 1] == JobWaitSteps(replies)[..n] + [step];
      n := n + 1;
    }
    assert JobWaitSteps(replies)[..n] == JobWaitSteps(replies);
    p := StillPending;
  }

  /** Discovery stops at a job only once some reply lists a non-null job,
      and then at the first such reply. */
  lemma DiscoveryWaitsForJob(replies: seq<Reply>, p: Poll<Json>)
    requires FirstDecisive(DiscoverySteps(replies), p) && p.Finished?
    ensures p.value != Null
    ensures forall i :: 0 <= i < p.polls - 1 ==> DiscoveryStep(replies[i]).Pending?
  {
    var steps := DiscoverySteps(replies);
    assert steps[p.polls - 1] == DiscoveryStep(replies[p.polls - 1]);
    forall i | 0 <= i < p.polls - 1 ensures DiscoveryStep(replies[i]).Pending? {
      assert steps[..p.polls - 1][i] == steps[i];
    }
  }

  /** How the runner's --wait handling ended. */
  datatype WaitOutcome =
    | NotWaiting                              // no --wait
    | NoIdentifier                            // sys.exit(-1): neither a job nor a submission id
    | Discovery(discovery: Poll<Json>)        // discovery raised or is still polling
    | JobWait(job: Json, wait: Poll<bool>)    // the job's status loop and how it ended

  /** The runner's options object: attributes set from the command line over
      a few defaults; an attribute never set reads as None. */
  class RunnerOptions {
    var attrs: Dict

    constructor (entries: Dict)
      ensures attrs == Update(RUNNER_DEFAULTS, entries)
    {
      attrs := Update(RUNNER_DEFAULTS, entries);
    }

    function Get(name: string): Json
      reads this
    {
      Lookup(attrs, name).GetOr(Null)
    }

    /** An upload that asks for a result file forces --wait. */
    method ForceWait()
      modifies this
      ensures var uploading := Truthy(old(Get("upload"))) || Truthy(old(Get("upload_url"))) || Truthy(old(Get("upload_xy")));
              var wantsResult := Truthy(old(Get("wcs"))) || Truthy(old(Get("kmz"))) || Truthy(old(Get("newfits")))
                                 || Truthy(old(Get("corr"))) || Truthy(old(Get("annotate")));
              attrs == if uploading && wantsResult then Put(old(attrs), "wait", Bool(true)) else old(attrs)
    {
      if Truthy(Get("upload")) || Truthy(Get("upload_url")) || Truthy(Get("upload_xy")) {
        if Truthy(Get("wcs")) || Truthy(Get("kmz")) || Truthy(Get("newfits")) || Truthy(Get("corr")) || Truthy(Get("annotate")) {
          attrs := Put(attrs, "wait", Bool(true));
        }
      }
    }

    /** The `for key in [...]` loop: each listed option that is set (not
        None) is copied into the keywords under its own name. */
    method CopySetOptions(kwargs: Dict, keys: seq<string>) returns (r: Dict)
      ensures forall k :: k !in keys ==> Lookup(r, k) == Lookup(kwargs, k)
      ensures forall j :: 0 <= j < |keys| ==>
                Lookup(r, keys[j]) == if Get(keys[j]) != Null then Some(Get(keys[j])) else Lookup(kwargs, keys[j])
    {
      r := kwargs;
      var i := 0;
      while i < |keys|
        invariant 0 <= i <= |keys|
        invariant forall k :: k !in keys[..i] ==> Lookup(r, k) == Lookup(kwargs, k)
        invariant forall j :: 0 <= j < i ==>
                    Lookup(r, keys[j]) == if Get(keys[j]) != Null then Some(Get(keys[j])) else Lookup(kwargs, keys[j])
      {
        var key := keys[i];
        assert keys[..i + 1] == keys[..i] + [key];
        if Get(key) != Null {
          r := Put(r, key, Get(key));
        }
        i := i + 1;
      }
      assert keys[..i] == keys;
    }

    /** The keyword arguments the runner passes to upload: the permissions,
        the scale options, every pass-through option that is set, and the
        parity converted with int(). */
    method UploadKwargs(cast: (Cast, Json) -> Result<Json, PyError>) returns (r: Result<Dict, PyError>)
      ensures r.Err? <==> Get("parity") != Null && cast(ToInt, Get("parity")).Err?
      ensures r.Ok? ==>
                Lookup(r.value, "allow_commercial_use") == Some(Get("allow_commercial"))
                && Lookup(r.value, "allow_modifications") == Some(Get("allow_mod"))
                && Lookup(r.value, "publicly_visible") == Some(Get("public"))
      ensures r.Ok? ==>
                var scale := ScaleOptions(Get("scale_lower"), Get("scale_upper"), Get("scale_est"), Get("scale_err"));
                Lookup(r.value, "scale_type") == Lookup(scale, "scale_type")
                && Lookup(r.value, "scale_lower") == Lookup(scale, "scale_lower")
                && Lookup(r.value, "scale_upper") == Lookup(scale, "scale_upper")
                && Lookup(r.value, "scale_est") == Lookup(scale, "scale_est")
                && Lookup(r.value, "scale_err") == Lookup(scale, "scale_err")
      ensures r.Ok? ==>
                forall j :: 0 <= j < |PASSTHROUGH_OPTIONS| ==>
                  Lookup(r.value, PASSTHROUGH_OPTIONS[j]) ==
                    if Get(PASSTHROUGH_OPTIONS[j]) != Null then Some(Get(PASSTHROUGH_OPTIONS[j])) else None
      ensures r.Ok? ==>
                Lookup(r.value, "parity") == if Get("parity") != Null then Some(cast(ToInt, Get("parity")).value) else None
      ensures r.Ok? ==>
                forall k :: !IsPermissionKey(k) && !IsScaleKey(k) && k !in PASSTHROUGH_OPTIONS && k != "parity" ==>
                  Lookup(r.value, k) == None
    {
      var kwargs := PermissionAndScaleKwargs();
      NotPassthrough();
      kwargs := CopySetOptions(kwargs, PASSTHROUGH_OPTIONS);
      r := AddParity(kwargs, cast);
    }

    /** The keywords before the pass-through loop: the permissions, then the
        scale options. */
    method PermissionAndScaleKwargs() returns (kwargs: Dict)
      ensures Lookup(kwargs, "allow_commercial_use") == Some(Get("allow_commercial"))
              && Lookup(kwargs, "allow_modifications") == Some(Get("allow_mod"))
              && Lookup(kwargs, "publicly_visible") == Some(Get("public"))
      ensures var scale := ScaleOptions(Get("scale_lower"), Get("scale_upper"), Get("scale_est"), Get("scale_err"));
              Lookup(kwargs, "scale_type") == Lookup(scale, "scale_type")
              && Lookup(kwargs, "scale_lower") == Lookup(scale, "scale_lower")
              && Lookup(kwargs, "scale_upper") == Lookup(scale, "scale_upper")
              && Lookup(kwargs, "scale_est") == Lookup(scale, "scale_est")
              && Lookup(kwargs, "scale_err") == Lookup(scale, "scale_err")
      ensures forall j :: 0 <= j < |PASSTHROUGH_OPTIONS| ==> Lookup(kwargs, PASSTHROUGH_OPTIONS[j]) == None
      ensures Lookup(kwargs, "parity") == None
      ensures forall k :: !IsPermissionKey(k) && !IsScaleKey(k) ==> Lookup(kwargs, k) == None
    {
      var scale := ScaleOptions(Get("scale_lower"), Get("scale_upper"), Get("scale_est"), Get("scale_err"));
      ScaleOptionsDistinct(Get("scale_lower"), Get("scale_upper"), Get("scale_est"), Get("scale_err"));
      var allowCommercial, allowMod, public := Get("allow_commercial"), Get("allow_mod"), Get("public");
      kwargs := PermissionsAndScale(allowCommercial, allowMod, public, scale);
      PermissionsKept(allowCommercial, allowMod, public, scale);
      ScaleKept(allowCommercial, allowMod, public, scale, "scale_type");
      ScaleKept(allowCommercial, allowMod, public, scale, "scale_lower");
      ScaleKept(allowCommercial, allowMod, public, scale, "scale_upper");
      ScaleKept(allowCommercial, allowMod, public, scale, "scale_est");
      ScaleKept(allowCommercial, allowMod, public, scale, "scale_err");
      OthersUnset(allowCommercial, allowMod, public, scale, "parity");
      PassthroughDisjoint();
      forall j | 0 <= j < |PASSTHROUGH_OPTIONS|
        ensures Lookup(kwargs, PASSTHROUGH_OPTIONS[j]) == None
      {
        OthersUnset(allowCommercial, allowMod, public, scale, PASSTHROUGH_OPTIONS[j]);
      }
      forall k | !IsPermissionKey(k) && !IsScaleKey(k)
        ensures Lookup(kwargs, k) == None
      {
        OthersUnset(allowCommercial, allowMod, public, scale, k);
      }
    }

    /** The parity, when set, is sent as int(parity). */
    method AddParity(kwargs: Dict, cast: (Cast, Json) -> Result<Json, PyError>) returns (r: Result<Dict, PyError>)
      ensures r.Err? <==> Get("parity") != Null && cast(ToInt, Get("parity")).Err?
      ensures r.Ok? ==> forall k :: k != "parity" ==> Lookup(r.value, k) == Lookup(kwargs, k)
      ensures r.Ok? ==>
                Lookup(r.value, "parity") ==
                  if Get("parity") != Null then Some(cast(ToInt, Get("parity")).value) else Lookup(kwargs, "parity")
    {
      if Get("parity") != Null {
        var parity := cast(ToInt, Get("parity"));
        if parity.Err? {
          return Err(parity.error);
        }
        return Ok(Put(kwargs, "parity", parity.value));
      }
      r := Ok(kwargs);
    }

    /** After the upload: record the submission id, or stop. */
    method RecordSubmission(upres: Json) returns (outcome: Result<(), PyError>)
      modifies this
      ensures SubmissionId(upres).Ok? ==> attrs == Put(old(attrs), "sub_id", SubmissionId(upres).value) && outcome == Ok(())
      ensures SubmissionId(upres).Err? ==> attrs == old(attrs) && outcome == Err(SubmissionId(upres).error)
    {
      var stat := GetItem(upres, "status");
      if stat.Err? {
        return Err(stat.error);
      }
      if stat.value != Str("success") {
        return Err(SystemExit(-1));
      }
      var subid := GetItem(upres, "subid");
      if subid.Err? {
        return Err(subid.error);
      }
      attrs := Put(attrs, "sub_id", subid.value);
      outcome := Ok(());
    }

    /** --wait: find the job of the submission unless a job id was given,
        then poll the job until it succeeds or fails. */
    method Wait(submissionReplies: seq<Reply>, jobReplies: seq<Reply>) returns (outcome: WaitOutcome)
      modifies this
      ensures !Truthy(old(Get("wait"))) ==> outcome == NotWaiting && attrs == old(attrs)
      ensures Truthy(old(Get("wait"))) && old(Get("solved_id")) == Null && old(Get("sub_id")) == Null ==>
                outcome == NoIdentifier
      ensures Truthy(old(Get("wait"))) && old(Get("solved_id")) != Null ==> outcome.JobWait?
      ensures Truthy(old(Get("wait"))) && old(Get("solved_id")) == Null && old(Get("sub_id")) != Null ==>
                outcome.Discovery? || outcome.JobWait?
      ensures outcome.NoIdentifier? || outcome.Discovery? ==> attrs == old(attrs)
      ensures outcome.JobWait? ==>
                attrs == if old(Get("solved_id")) == Null then Put(old(attrs), "solved_id", outcome.job) else old(attrs)
      ensures outcome.Discovery? ==> old(Get("solved_id")) == Null && !outcome.discovery.Finished?
                                     && FirstDecisive(DiscoverySteps(submissionReplies), outcome.discovery)
      ensures outcome.JobWait? ==> Get("solved_id") == outcome.job
                                   && FirstDecisive(JobWaitSteps(jobReplies), outcome.wait)
                                   && (old(Get("solved_id")) == Null ==>
                                         exists p :: FirstDecisive(DiscoverySteps(submissionReplies), p)
                                                     && p.Finished? && p.value == outcome.job)
                                   && (old(Get("solved_id")) != Null ==> outcome.job == old(Get("solved_id")))
    {
      if !Truthy(Get("wait")) {
        return NotWaiting;
      }
      if Get("solved_id") == Null {
        if Get("sub_id") == Null {
          return NoIdentifier;
        }
        var found := DiscoverJob(submissionReplies);
        if !found.Finished? {
          return Discovery(found);
        }
        attrs := Put(attrs, "solved_id", found.value);
      }
      var waited := WaitForJob(jobReplies);
      outcome := JobWait(Get("solved_id"), waited);
    }
  }

  /** The three permission keywords, in the order the runner writes them. */
  function Permissions(allowCommercial: Json, allowMod: Json, public: Json): (d: Dict)
    ensures Lookup(d, "allow_commercial_use") == Some(allowCommercial)
    ensures Lookup(d, "allow_modifications") == Some(allowMod)
    ensures Lookup(d, "publicly_visible") == Some(public)
    ensures forall k :: !IsPermissionKey(k) ==> Lookup(d, k) == None
  {
    Put(Put(Put([], "allow_commercial_use", allowCommercial), "allow_modifications", allowMod),
        "publicly_visible", public)
  }

  /** The keys the runner sets outside the pass-through loop. */
  lemma NotPassthrough()
    ensures "allow_commercial_use" !in PASSTHROUGH_OPTIONS && "allow_modifications" !in PASSTHROUGH_OPTIONS
            && "publicly_visible" !in PASSTHROUGH_OPTIONS && "scale_type" !in PASSTHROUGH_OPTIONS
            && "scale_lower" !in PASSTHROUGH_OPTIONS && "scale_upper" !in PASSTHROUGH_OPTIONS
            && "scale_est" !in PASSTHROUGH_OPTIONS && "scale_err" !in PASSTHROUGH_OPTIONS
            && "parity" !in PASSTHROUGH_OPTIONS
  {
    PassthroughDisjoint();
  }

  predicate IsPermissionKey(k: string) {
    k == "allow_commercial_use" || k == "allow_modifications" || k == "publicly_visible"
  }

  predicate IsScaleKey(k: string) {
    k == "scale_type" || k == "scale_lower" || k == "scale_upper" || k == "scale_est" || k == "scale_err"
  }

  /** The runner's keywords before the pass-through options: the three
      permissions, then the scale options. */
  function PermissionsAndScale(allowCommercial: Json, allowMod: Json, public: Json, scale: Dict): Dict
  {
    Update(Permissions(allowCommercial, allowMod, public), scale)
  }

  /** The scale options never overwrite a permission. */
  lemma PermissionsKept(allowCommercial: Json, allowMod: Json, public: Json, scale: Dict)
    requires forall k :: k in Keys(scale) ==> IsScaleKey(k)
    ensures var d := PermissionsAndScale(allowCommercial, allowMod, public, scale);
            Lookup(d, "allow_commercial_use") == Some(allowCommercial)
            && Lookup(d, "allow_modifications") == Some(allowMod)
            && Lookup(d, "publicly_visible") == Some(public)
  {
    assert !IsScaleKey("allow_commercial_use");
    assert !IsScaleKey("allow_modifications");
    assert !IsScaleKey("publicly_visible");
  }

  /** Each scale key reads as in the scale options. */
  lemma ScaleKept(allowCommercial: Json, allowMod: Json, public: Json, scale: Dict, k: string)
    requires (forall k' :: k' in Keys(scale) ==> IsScaleKey(k')) && DistinctKeys(scale) && IsScaleKey(k)
    ensures Lookup(PermissionsAndScale(allowCommercial, allowMod, public, scale), k) == Lookup(scale, k)
  {
    if k in Keys(scale) {
      UpdateLookupIn(Permissions(allowCommercial, allowMod, public), scale, k);
    } else {
      assert !IsPermissionKey(k);
    }
  }

  /** Before the pass-through loop nothing but permissions and scale is set. */
  lemma OthersUnset(allowCommercial: Json, allowMod: Json, public: Json, scale: Dict, k: string)
    requires (forall k' :: k' in Keys(scale) ==> IsScaleKey(k')) && !IsPermissionKey(k) && !IsScaleKey(k)
    ensures Lookup(PermissionsAndScale(allowCommercial, allowMod, public, scale), k) == None
  {
  }

  /** No pass-through option shares a key with the permissions, the scale
      options or the parity. */
  lemma PassthroughDisjoint()
    ensures forall j :: 0 <= j < |PASSTHROUGH_OPTIONS| ==>
              PASSTHROUGH_OPTIONS[j] != "allow_commercial_use" && PASSTHROUGH_OPTIONS[j] != "allow_modifications"
              && PASSTHROUGH_OPTIONS[j] != "publicly_visible" && PASSTHROUGH_OPTIONS[j] != "scale_type"
              && PASSTHROUGH_OPTIONS[j] != "scale_lower" && PASSTHROUGH_OPTIONS[j] != "scale_upper"
              && PASSTHROUGH_OPTIONS[j] != "scale_est" && PASSTHROUGH_OPTIONS[j] != "scale_err"
              && PASSTHROUGH_OPTIONS[j] != "parity"
  {
  }
}
