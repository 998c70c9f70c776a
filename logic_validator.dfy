/** logic/validator.py: the newer required-field validator and the wrapper
    that answers 400 instead of calling a view handler when fields are
    missing. */
module LogicValidator {
  import opened PyValues
  import opened FieldChecks
  import LogicExceptions

  const GetPlaylistsFields: seq<string> := ["platform", "code", "state", "redirect_uri"]
  const PostPlaylistsFields: seq<string> := ["playlists", "context"]
  const GetAuthFields: seq<string> := ["platform", "redirect_uri"]

  /** The invalid-field list `is_valid_request` builds, before joining. */
  function InvalidFields(requestName: string, request: Request): Outcome<seq<string>> {
    if requestName == "getPlaylists" then
      Checked([], JObj(request.query), GetPlaylistsFields)
    else if requestName == "postPlaylists" then
      var invalid :- Checked([], request.data, PostPlaylistsFields);
      var context :- Get(request.data, "context", JObj([]));
      Checked(invalid, context, ["platform"])
    else if requestName == "getAuth" then
      Checked([], JObj(request.query), GetAuthFields)
    else
      Returned([])
  }

  /** `is_valid_request(request_name, request)`: the missing names joined
      with ", ". */
  function Report(requestName: string, request: Request): (r: Outcome<string>)
    ensures requestName == "getPlaylists" || requestName == "getAuth" ==> r.Returned?
  {
    CheckedOnDict([], request.query, GetPlaylistsFields);
    CheckedOnDict([], request.query, GetAuthFields);
    var invalid :- InvalidFields(requestName, request);
    Returned(Join(invalid, ", "))
  }

  /** `is_valid_request`, accumulating into `invalid_fields` with
      `check_fields` and `check_field`. */
  method IsValidRequest(requestName: string, request: Request) returns (r: Outcome<string>)
    ensures r == Report(requestName, request)
  {
    var invalid: seq<string> := [];
    var checked: Outcome<seq<string>>;
    if requestName == "getPlaylists" {
      checked := CheckFields(invalid, JObj(request.query), GetPlaylistsFields);
    } else if requestName == "postPlaylists" {
      checked := CheckFields(invalid, request.data, PostPlaylistsFields);
      if checked.Raised? {
        return Raised(checked.exc);
      }
      var context := Get(request.data, "context", JObj([]));
      if context.Raised? {
        return Raised(context.exc);
      }
      checked := CheckFields(checked.value, context.value, ["platform"]);
    } else if requestName == "getAuth" {
      checked := CheckFields(invalid, JObj(request.query), GetAuthFields);
    } else {
      checked := Returned(invalid);
    }
    if checked.Raised? {
      return Raised(checked.exc);
    }
    r := Returned(Join(checked.value, ", "));
  }

  /** `request_validator(request_name)(view_handler)` applied to a request:
      a 400 response naming the missing fields, or the handler's own outcome. */
  function RequestValidator(requestName: string, handler: Request -> Outcome<Response>, request: Request): (r: Outcome<Response>)
    ensures Report(requestName, request).Raised? ==> r == Raised(Report(requestName, request).exc)
    ensures Report(requestName, request).Returned? && Report(requestName, request).value != "" ==>
              r.Returned? && r.value.status == 400
    ensures Report(requestName, request) == Returned("") ==> r == handler(request)
  {
    var fields :- Report(requestName, request);
    if fields != "" then
      LogicExceptions.GetExceptionResponse(LogicExceptions.BadRequest("`" + fields + "` in request is invalid."))
    else
      handler(request)
  }

  // ---------------------------------------------------------------- properties

  /** For getPlaylists: whichever of platform, code, state, redirect_uri are
      absent from the query, in that order. */
  lemma GetPlaylistsReport(request: Request)
    ensures Report("getPlaylists", request) == Returned(Join(AbsentKeys(request.query, GetPlaylistsFields), ", "))
  {
    CheckedOnDict([], request.query, GetPlaylistsFields);
    assert [] + AbsentKeys(request.query, GetPlaylistsFields) == AbsentKeys(request.query, GetPlaylistsFields);
  }

  /** For getAuth: platform, then redirect_uri. */
  lemma GetAuthReport(request: Request)
    ensures Report("getAuth", request) == Returned(Join(AbsentKeys(request.query, GetAuthFields), ", "))
  {
    CheckedOnDict([], request.query, GetAuthFields);
    assert [] + AbsentKeys(request.query, GetAuthFields) == AbsentKeys(request.query, GetAuthFields);
  }

  /** For postPlaylists with a dict body: playlists and context, then platform
      inside context; an absent context also reports platform. */
  lemma PostPlaylistsReport(body: seq<(string, Json)>, query: seq<(string, Json)>)
    ensures var r := Report("postPlaylists", Request(query, JObj(body)));
      && (!HasKey(body, "context") ==>
            r == Returned(Join(AbsentKeys(body, PostPlaylistsFields) + ["platform"], ", ")))
      && (HasKey(body, "context") && Lookup(body, "context").value.JObj? ==>
            r == Returned(Join(AbsentKeys(body, PostPlaylistsFields)
                               + AbsentKeys(Lookup(body, "context").value.pairs, ["platform"]), ", ")))
  {
    CheckedOnDict([], body, PostPlaylistsFields);
    var invalid := AbsentKeys(body, PostPlaylistsFields);
    assert [] + invalid == invalid;
    if !HasKey(body, "context") {
      CheckedOnDict(invalid, [], ["platform"]);
      assert !HasKey([], "platform");
      assert AbsentKeys([], ["platform"]) == ["platform"];
    } else if Lookup(body, "context").value.JObj? {
      CheckedOnDict(invalid, Lookup(body, "context").value.pairs, ["platform"]);
    }
  }

  /** A request name other than the three performs no checks. */
  lemma UnknownRequestName(requestName: string, request: Request)
    requires requestName !in {"getPlaylists", "postPlaylists", "getAuth"}
    ensures Report(requestName, request) == Returned("")
  {
  }

  /** A getPlaylists report is empty exactly when all four names are present,
      and names none twice. */
  lemma GetPlaylistsEmptyIffComplete(request: Request)
    ensures Report("getPlaylists", request).Returned?
    ensures Report("getPlaylists", request).value == "" <==>
            forall x :: x in GetPlaylistsFields ==> HasKey(request.query, x)
    ensures Distinct(AbsentKeys(request.query, GetPlaylistsFields))
  {
    GetPlaylistsReport(request);
    ReportEmptyIffAllPresent(request.query, GetPlaylistsFields);
    AbsentKeysDistinct(request.query, GetPlaylistsFields);
  }

  /** When fields are missing, the wrapper answers 400 with
      "`<fields>` in request is invalid." whatever the handler would do. */
  lemma ValidatorShortCircuits(requestName: string, handler: Request -> Outcome<Response>, request: Request)
    requires Report(requestName, request).Returned? && Report(requestName, request).value != ""
    ensures RequestValidator(requestName, handler, request) ==
            Returned(Response(400, ErrorData("`" + Report(requestName, request).value + "` in request is invalid.")))
  {
  }

  /** When nothing is missing, the wrapper is the handler itself. */
  lemma ValidatorDelegates(requestName: string, handler: Request -> Outcome<Response>, request: Request)
    requires Report(requestName, request) == Returned("")
    ensures RequestValidator(requestName, handler, request) == handler(request)
  {
  }

  /** A getPlaylists query holding only state and redirect_uri. */
  const StateAndRedirect: seq<(string, Json)> := [("state", JStr("s")), ("redirect_uri", JStr("u"))]

  /** The report for a query holding only state and redirect_uri. */
  lemma MissingPlatformAndCodeReport()
    ensures Report("getPlaylists", Request(StateAndRedirect, JObj([]))) == Returned("platform, code")
  {
    GetPlaylistsReport(Request(StateAndRedirect, JObj([])));
    MissingPlatformAndCodeAbsent();
    assert Join(["platform", "code"], ", ") == "platform" + ", " + "code" by {
      assert ["platform", "code"][1..] == ["code"];
    }
    TwoNamesText();
  }

  lemma MissingPlatformAndCodeAbsent()
    ensures AbsentKeys(StateAndRedirect, GetPlaylistsFields) == ["platform", "code"]
  {
    var query := StateAndRedirect;
    assert !HasKey(query, "platform") && !HasKey(query, "code");
    assert HasKey(query, "state") by { assert query[0].0 == "state"; }
    assert HasKey(query, "redirect_uri") by { assert query[1].0 == "redirect_uri"; }
    var fs := GetPlaylistsFields;
    assert AbsentKeys(query, fs[3..]) == [] by { assert fs[3..][1..] == []; }
    assert AbsentKeys(query, fs[2..]) == [] by { assert fs[2..][1..] == fs[3..]; }
    assert AbsentKeys(query, fs[1..]) == ["code"] by { assert fs[1..][1..] == fs[2..]; }
  }

  /** The joined text, apart so that `MissingPlatformAndCodeReport` stays cheap. */
  lemma TwoNamesText()
    ensures "platform" + ", " + "code" == "platform, code"
  {
  }

  /** The response the component tests expect when platform and code are
      missing. */
  lemma MissingPlatformAndCode(handler: Request -> Outcome<Response>)
    ensures RequestValidator("getPlaylists", handler, Request(StateAndRedirect, JObj([]))) ==
            Returned(Response(400, ErrorData("`" + "platform, code" + "` in request is invalid.")))
  {
    var request := Request(StateAndRedirect, JObj([]));
    MissingPlatformAndCodeReport();
    ValidatorShortCircuits("getPlaylists", handler, request);
  }
}
