/** utils/validator.py: the older required-field validator (fewer required
    fields than the newer one) and its wrapper, which answers with the older
    error mapper. */
module UtilsValidator {
  import opened PyValues
  import opened FieldChecks
  import UtilsExceptions

  const GetPlaylistsFields: seq<string> := ["platform", "code", "state"]
  const PostPlaylistsFields: seq<string> := ["playlists", "context"]
  const GetAuthFields: seq<string> := ["platform"]

  /** The invalid-field list `is_valid_request` builds, before joining. */
  function InvalidFields(requestName: string, request: Request): Outcome<seq<string>> {
    if requestName == "getPlaylists" then
      Checked([], JObj(request.query), GetPlaylistsFields)
    else if requestName == "postPlaylists" then
      var invalid :- Checked([], request.data, PostPlaylistsFields);
      var context :- Get(request.data, "context", JObj([]));
      Checked(invalid, context, ["platform"])
    else if requestName == "getAuth" then
      Checked([], JObj(request.query), GetAuthFields)
    else
      Returned([])
  }

  /** `is_valid_request(request_name, request)`: the missing names joined
      with ", ". */
  function Report(requestName: string, request: Request): (r: Outcome<string>)
    ensures requestName == "getPlaylists" || requestName == "getAuth" ==> r.Returned?
  {
    CheckedOnDict([], request.query, GetPlaylistsFields);
    CheckedOnDict([], request.query, GetAuthFields);
    var invalid :- InvalidFields(requestName, request);
    Returned(Join(invalid, ", "))
  }

  /** `is_valid_request`, appending to `invalid_fields` in `for` loops. */
  method IsValidRequest(requestName: string, request: Request) returns (r: Outcome<string>)
    ensures r == Report(requestName, request)
  {
    var invalid: seq<string> := [];
    var checked: Outcome<seq<string>>;
    if requestName == "getPlaylists" {
      checked := CheckFields(invalid, JObj(request.query), GetPlaylistsFields);
    } else if requestName == "postPlaylists" {
      checked := CheckFields(invalid, request.data, PostPlaylistsFields);
      if checked.Raised? {
        return Raised(checked.exc);
      }
      var context := Get(request.data, "context", JObj([]));
      if context.Raised? {
        return Raised(context.exc);
      }
      checked := CheckFields(checked.value, context.value, ["platform"]);
    } else if requestName == "getAuth" {
      checked := CheckFields(invalid, JObj(request.query), GetAuthFields);
    } else {
      checked := Returned(invalid);
    }
    if checked.Raised? {
      return Raised(checked.exc);
    }
    r := Returned(Join(checked.value, ", "));
  }

  /** `request_validator(request_name)(view_handler)` applied to a request. */
  function RequestValidator(requestName: string, handler: Request -> Outcome<Response>, request: Request): (r: Outcome<Response>)
    ensures Report(requestName, request).Raised? ==> r == Raised(Report(requestName, request).exc)
    ensures Report(requestName, request).Returned? && Report(requestName, request).value != "" ==>
              r.Returned? && r.value.status == 400
    ensures Report(requestName, request) == Returned("") ==> r == handler(request)
  {
    var fields :- Report(requestName, request);
    if fields != "" then
      Returned(UtilsExceptions.GetExceptionResponse(UtilsExceptions.BadRequest("`" + fields + "` in request is invalid.")))
    else
      handler(request)
  }

  // ---------------------------------------------------------------- properties

  /** For getPlaylists: whichever of platform, code, state are absent, in that
      order; redirect_uri is not required. */
  lemma GetPlaylistsReport(request: Request)
    ensures Report("getPlaylists", request) == Returned(Join(AbsentKeys(request.query, GetPlaylistsFields), ", "))
  {
    CheckedOnDict([], request.query, GetPlaylistsFields);
    assert [] + AbsentKeys(request.query, GetPlaylistsFields) == AbsentKeys(request.query, GetPlaylistsFields);
  }

  /** For getAuth only platform is required. */
  lemma GetAuthReport(request: Request)
    ensures Report("getAuth", request) == Returned(if HasKey(request.query, "platform") then "" else "platform")
  {
    CheckedOnDict([], request.query, GetAuthFields);
    assert GetAuthFields[1..] == [];
    assert [] + AbsentKeys(request.query, GetAuthFields) == AbsentKeys(request.query, GetAuthFields);
  }

  /** For postPlaylists with a dict body: playlists and context, then platform
      inside context, which counts as `{}` when absent. */
  lemma PostPlaylistsReport(body: seq<(string, Json)>, query: seq<(string, Json)>)
    ensures var r := Report("postPlaylists", Request(query, JObj(body)));
      && (!HasKey(body, "context") ==>
            r == Returned(Join(AbsentKeys(body, PostPlaylistsFields) + ["platform"], ", ")))
      && (HasKey(body, "context") && Lookup(body, "context").value.JObj? ==>
            r == Returned(Join(AbsentKeys(body, PostPlaylistsFields)
                               + AbsentKeys(Lookup(body, "context").value.pairs, ["platform"]), ", ")))
  {
    CheckedOnDict([], body, PostPlaylistsFields);
    var invalid := AbsentKeys(body, PostPlaylistsFields);
    assert [] + invalid == invalid;
    if !HasKey(body, "context") {
      CheckedOnDict(invalid, [], ["platform"]);
      assert !HasKey([], "platform");
      assert AbsentKeys([], ["platform"]) == ["platform"];
    } else if Lookup(body, "context").value.JObj? {
      CheckedOnDict(invalid, Lookup(body, "context").value.pairs, ["platform"]);
    }
  }

  /** A request name other than the three performs no checks. */
  lemma UnknownRequestName(requestName: string, request: Request)
    requires requestName !in {"getPlaylists", "postPlaylists", "getAuth"}
    ensures Report(requestName, request) == Returned("")
  {
  }

  /** A getPlaylists report is empty exactly when platform, code and state
      are all present, and names none twice. */
  lemma GetPlaylistsEmptyIffComplete(request: Request)
    ensures Report("getPlaylists", request).Returned?
    ensures Report("getPlaylists", request).value == "" <==>
            forall x :: x in GetPlaylistsFields ==> HasKey(request.query, x)
    ensures Distinct(AbsentKeys(request.query, GetPlaylistsFields))
  {
    GetPlaylistsReport(request);
    ReportEmptyIffAllPresent(request.query, GetPlaylistsFields);
    AbsentKeysDistinct(request.query, GetPlaylistsFields);
  }

  /** When fields are missing, the wrapper answers 400 with
      "`<fields>` in request is invalid." whatever the handler would do. */
  lemma ValidatorShortCircuits(requestName: string, handler: Request -> Outcome<Response>, request: Request)
    requires Report(requestName, request).Returned? && Report(requestName, request).value != ""
    ensures RequestValidator(requestName, handler, request) ==
            Returned(Response(400, ErrorData("`" + Report(requestName, request).value + "` in request is invalid.")))
  {
  }

  /** When nothing is missing, the wrapper is the handler itself. */
  lemma ValidatorDelegates(requestName: string, handler: Request -> Outcome<Response>, request: Request)
    requires Report(requestName, request) == Returned("")
    ensures RequestValidator(requestName, handler, request) == handler(request)
  {
  }

  /** The component test with an empty query: all three names, in order. */
  lemma EmptyQueryReport()
    ensures Report("getPlaylists", Request([], JObj([]))) == Returned("platform, code, state")
  {
    GetPlaylistsReport(Request([], JObj([])));
    AbsentFromEmpty(GetPlaylistsFields);
    JoinThree("platform", "code", "state");
    ThreeNamesText();
  }

  /** The joined text, apart so that `EmptyQueryReport` stays cheap. */
  lemma ThreeNamesText()
    ensures "platform" + ", " + "code" + ", " + "state" == "platform, code, state"
  {
  }

  lemma JoinThree(a: string, b: string, c: string)
    ensures Join([a, b, c], ", ") == a + ", " + b + ", " + c
  {
    assert [a, b, c][1..] == [b, c];
    assert [b, c][1..] == [c];
  }
}
