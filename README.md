# playlistmover — a verified model of its request handling core

playlistmover moves playlists between music platforms. It is a Django REST
service, and this project models the logic behind that glue:

- **The Spotify client.** `logic/clients.py` holds:
  - a factory choosing a client per platform;
  - a client object that keeps an authorization nonce and, after the OAuth token exchange, the access and refresh tokens and the bearer headers;
  - the mapping of Spotify's playlist JSON onto playlists and songs.
- **Two required-field validators** (`logic/validator.py`, `utils/validator.py`). Each reports the missing field names in a fixed order joined with `", "`, with a wrapper that answers 400 instead of calling the view.
- **Two error-to-response mappers** (`logic/exceptions.py`, `utils/exceptions.py`).
- **The platform enum** with its case-insensitive lookup (`logic/clients_enums.py`).
- **The Image / Song / Playlist schema** (`serializers.py`).
- **The base64 helper** that builds the Basic credentials (`utils/utils.py`). It encodes with the alphabet and padding of section 4 of RFC 4648.

Python's runtime behaviour, which the code depends on, is modelled explicitly in `PyValues`:

- Values are JSON-shaped, and dicts are ordered pair lists.
- A call yields an `Outcome`, which is either a value or a raised exception.
- `in`, `[]`, `.get`, iteration and truthiness raise TypeError, AttributeError or KeyError on the same inputs Python does.
- `str()` of an exception follows `BaseException.__str__`.

HTTP is seen from the client's side, as the `Http.Transport` class:

- The remote side is a fixed function from request to response.
- A `log` field records every request sent, in order.
- Specification functions return a `Step`: the requests sent, plus the outcome. This lets contracts state what was sent and in which order, for example that no token request precedes the nonce check.

Modules:

- `py_values.dfy`: Python semantics.
- `http.dfy`: the transport.
- `clients_enums.dfy`, `logic_exceptions.dfy`, `utils_exceptions.dfy`, `field_checks.dfy`, `logic_validator.dfy`, `utils_validator.dfy`, `serializers.dfy`, `utils.dfy`, `clients.dfy`: one per source file. `field_checks.dfy` is the presence test the two validators share.

## Model

| member | source | states |
|---|---|---|
| ClientsEnums.Search | playlistmover/playlistmover/logic/clients_enums.py:18-20 | a found member is among those searched and matches ignoring case; when none is found, no member matches |
| ClientsEnums.Missing | playlistmover/playlistmover/logic/clients_enums.py:14-20 | a value that is not a str resolves to nothing; a found member's upper-cased name equals the upper-cased value |
| ClientsEnums.FromValue | playlistmover/playlistmover/logic/clients_enums.py:4-20 | `ClientEnum(value)`: a value that is not a str gives no member; a member found has the value's name ignoring case |
| ClientsEnums.MembersAreExact | playlistmover/playlistmover/logic/clients_enums.py:4-11 | the members are exactly SPOTIFY, APPLE_MUSIC, YOUTUBE_MUSIC, each with its name as value, and no two names agree after upper-casing, so at most one member matches |
| ClientsEnums.UpperNameInjective | playlistmover/playlistmover/logic/clients_enums.py:9-11 | two members whose upper-cased names agree are the same member |
| ClientsEnums.MissingIgnoresCase | playlistmover/playlistmover/logic/clients_enums.py:18-20 | a str equal to a member's name ignoring case resolves to exactly that member |
| ClientsEnums.MissingRejectsUnknown | playlistmover/playlistmover/logic/clients_enums.py:18-20 | a str matching no name ignoring case resolves to nothing |
| ClientsEnums.FromValueIsCaseInsensitive | playlistmover/playlistmover/logic/clients_enums.py:4-20 | the exact-value path of the enum call agrees with `_missing_` on every input |
| ClientsEnums.SpotifyAnyCase | playlistmover/playlistmover/logic/clients_enums.py:13-20 | "spotify", "Spotify" and "SPOTIFY" all give SPOTIFY |
| LogicExceptions.GetExceptionResponse | playlistmover/playlistmover/logic/exceptions.py:21-33 | a response exactly for BadRequest and Unauthorized; 400 iff BadRequest, 401 iff Unauthorized; the body is `{"success": False, "error": str(e)}`; anything else is raised again unchanged |
| LogicExceptions.MessageIsErrorText | playlistmover/playlistmover/logic/exceptions.py:25-29 | a one-message BadRequest / Unauthorized gives 400 / 401 with that message as the error |
| UtilsExceptions.GetExceptionResponse | playlistmover/playlistmover/utils/exceptions.py:13-22 | always a response; body `{"success": False, "error": str(e)}`; 400 iff BadRequest, 500 iff not |
| FieldChecks.CheckFields | playlistmover/playlistmover/logic/validator.py:16-22 | the `for` loop appending absent names computes the check-order specification `Checked` |
| FieldChecks.AbsentKeys | playlistmover/playlistmover/logic/validator.py:16-18 | a name is reported iff it is among the checked names and not a key; never more names than checked |
| FieldChecks.CheckedOnDict | playlistmover/playlistmover/logic/validator.py:16-22 | against a dict the checks never raise and append exactly the absent names, in check order, whatever the stored values |
| FieldChecks.AbsentFromEmpty | playlistmover/playlistmover/logic/validator.py:16-22 | against an empty dict every checked name is reported, in order |
| FieldChecks.AbsentKeysDistinct | playlistmover/playlistmover/logic/validator.py:16-22 | distinct checked names are reported at most once each |
| FieldChecks.ReportEmptyIffAllPresent | playlistmover/playlistmover/logic/validator.py:32 | the `", "`-joined report is empty exactly when every checked name is present |
| LogicValidator.IsValidRequest | playlistmover/playlistmover/logic/validator.py:10-32 | the accumulating implementation returns the report `Report` (including the exceptions a non-dict body raises) |
| LogicValidator.Report | playlistmover/playlistmover/logic/validator.py:10-32 | the report for getPlaylists and getAuth never raises, the query being a dict (the per-request lemmas below give its text) |
| LogicValidator.RequestValidator | playlistmover/playlistmover/logic/validator.py:35-52 | an exception from the report propagates; a non-empty report gives a 400 response; an empty one gives exactly the handler's outcome |
| LogicValidator.GetPlaylistsReport | playlistmover/playlistmover/logic/validator.py:24-25 | getPlaylists reports whichever of platform, code, state, redirect_uri are absent, in that order |
| LogicValidator.PostPlaylistsReport | playlistmover/playlistmover/logic/validator.py:26-28 | postPlaylists reports playlists, context, then platform inside context; an absent context also reports platform |
| LogicValidator.GetAuthReport | playlistmover/playlistmover/logic/validator.py:29-30 | getAuth reports platform then redirect_uri when absent |
| LogicValidator.UnknownRequestName | playlistmover/playlistmover/logic/validator.py:24-32 | any other request name reports "" |
| LogicValidator.GetPlaylistsEmptyIffComplete | playlistmover/playlistmover/logic/validator.py:24-32 | the getPlaylists report never raises, is empty iff all four names are present, and names none twice |
| LogicValidator.ValidatorShortCircuits | playlistmover/playlistmover/logic/validator.py:41-47 | a non-empty report yields 400 with "`<fields>` in request is invalid." whatever the handler would do |
| LogicValidator.ValidatorDelegates | playlistmover/playlistmover/logic/validator.py:41-48 | an empty report yields exactly the handler's outcome on the same request |
| LogicValidator.MissingPlatformAndCodeReport | playlistmover/playlistmover/logic/validator.py:24-25 | a query holding only state and redirect_uri reports "platform, code" |
| LogicValidator.MissingPlatformAndCode | playlistmover/playlistmover/logic/validator.py:40-47 | that query is answered 400 with "`platform, code` in request is invalid." |
| UtilsValidator.IsValidRequest | playlistmover/playlistmover/utils/validator.py:10-30 | the `for`-loop implementation returns the report `Report` |
| UtilsValidator.Report | playlistmover/playlistmover/utils/validator.py:10-30 | the report for getPlaylists and getAuth never raises, the query being a dict |
| UtilsValidator.RequestValidator | playlistmover/playlistmover/utils/validator.py:33-50 | an exception from the report propagates; a non-empty report gives a 400 response; an empty one gives exactly the handler's outcome |
| UtilsValidator.GetPlaylistsReport | playlistmover/playlistmover/utils/validator.py:20-22 | getPlaylists reports absent platform, code, state in that order; redirect_uri is not required |
| UtilsValidator.PostPlaylistsReport | playlistmover/playlistmover/utils/validator.py:23-26 | postPlaylists reports playlists, context, then platform inside context, which counts as `{}` when absent |
| UtilsValidator.GetAuthReport | playlistmover/playlistmover/utils/validator.py:27-28 | getAuth reports "platform" exactly when it is absent, else "" |
| UtilsValidator.UnknownRequestName | playlistmover/playlistmover/utils/validator.py:20-30 | any other request name reports "" |
| UtilsValidator.GetPlaylistsEmptyIffComplete | playlistmover/playlistmover/utils/validator.py:20-30 | the getPlaylists report never raises, is empty iff platform, code and state are present, and names none twice |
| UtilsValidator.ValidatorShortCircuits | playlistmover/playlistmover/utils/validator.py:39-45 | a non-empty report yields 400 with "`<fields>` in request is invalid." without the handler |
| UtilsValidator.ValidatorDelegates | playlistmover/playlistmover/utils/validator.py:38-46 | an empty report yields exactly the handler's outcome |
| UtilsValidator.EmptyQueryReport | playlistmover/playlistmover/utils/validator.py:20-30 | an empty query reports "platform, code, state" |
| UtilsValidator.JoinThree | playlistmover/playlistmover/utils/validator.py:30 | three names are joined as `a, b, c` |
| Serializers.CharField | playlistmover/playlistmover/serializers.py:10 | accepted iff present, a str, and at most 200 characters; the value is kept |
| Serializers.IntegerField | playlistmover/playlistmover/serializers.py:11-12 | absent gives 0; present is accepted iff an int, kept as is |
| Serializers.ListOf | playlistmover/playlistmover/serializers.py:21-22 | a list is accepted iff every element is, giving the elements' results in order |
| Serializers.ImageFrom | playlistmover/playlistmover/serializers.py:5-12 | an accepted image is valid |
| Serializers.ImagesFrom | playlistmover/playlistmover/serializers.py:22 | accepted images are all valid |
| Serializers.ArtistFrom | playlistmover/playlistmover/serializers.py:21 | an accepted artist name is at most 200 characters |
| Serializers.SongFrom | playlistmover/playlistmover/serializers.py:15-22 | an accepted song is valid: short title, short artist names, valid images |
| Serializers.PlaylistFrom | playlistmover/playlistmover/serializers.py:25-32 | an accepted playlist is valid, recursively |
| Serializers.LongUrlRejected | playlistmover/playlistmover/serializers.py:10 | a url over 200 characters rejects the image |
| Serializers.ImageDefaults | playlistmover/playlistmover/serializers.py:11-12 | an image given only its url gets height and width 0 |
| Serializers.ListRejectsBadElement | playlistmover/playlistmover/serializers.py:21-22 | one rejected element rejects the whole list |
| Serializers.ListOfAll | playlistmover/playlistmover/serializers.py:21-22 | elements each accepted as the given values make the list accepted as those values |
| Serializers.ImageRoundTrip | playlistmover/playlistmover/serializers.py:5-12 | a valid image's data validates back to the same image |
| Serializers.ImagesRoundTrip | playlistmover/playlistmover/serializers.py:22 | valid images' data validates back to the same images, in order |
| Serializers.SongRoundTrip | playlistmover/playlistmover/serializers.py:15-22 | a valid song's data validates back to the same song |
| Serializers.PlaylistRoundTrip | playlistmover/playlistmover/serializers.py:25-32 | a valid playlist's data validates back to the same playlist |
| Serializers.PlaylistAcceptedIffValid | playlistmover/playlistmover/serializers.py:25-32 | a playlist's data is accepted as itself exactly when the playlist is valid |
| Utils.AsciiEncode | playlistmover/playlistmover/utils/utils.py:8 | succeeds iff every character is below 128, giving one byte per character with its code |
| Utils.Encode | playlistmover/playlistmover/utils/utils.py:9 | `base64.b64encode`: empty exactly for no bytes, otherwise at least one four-character group (`EncodeShape` and `DecodeEncode` give its shape and inverse) |
| Utils.EncodeShape | playlistmover/playlistmover/utils/utils.py:9 | the encoding has 4·⌈n/3⌉ characters: alphabet characters, then `==`, `=` or nothing as n mod 3 is 1, 2 or 0 |
| Utils.EncodeGroups | playlistmover/playlistmover/utils/utils.py:9 | more than two bytes encode as the first group's four characters followed by the rest's encoding |
| Utils.DecodeEncode | playlistmover/playlistmover/utils/utils.py:9 | decoding an encoding gives the bytes back |
| Utils.EncodeStringBase64 | playlistmover/playlistmover/utils/utils.py:4-11 | succeeds iff the message is ASCII (UnicodeEncodeError otherwise), with the length, alphabet and padding of section 4 of RFC 4648 |
| Utils.EncodeStringBase64RoundTrip | playlistmover/playlistmover/utils/utils.py:4-11 | decoding the result gives the character codes of the message |
| Utils.EncodeEmpty | playlistmover/playlistmover/utils/utils.py:4-11 | "" encodes to "" |
| Utils.EncodeOneChar | playlistmover/playlistmover/utils/utils.py:4-11 | "a" encodes to "YQ==" |
| Utils.EncodeTwoChars | playlistmover/playlistmover/utils/utils.py:4-11 | "ab" encodes to "YWI=" |
| Utils.EncodeThreeChars | playlistmover/playlistmover/utils/utils.py:4-11 | "abc" encodes to "YWJj" |
| Clients.GetClient | playlistmover/playlistmover/logic/clients.py:51-58 | a client exactly for SPOTIFY, fresh and in its initial state; otherwise BadRequest "`<member>` not supported." |
| Clients.UnsupportedPlatformResponse | playlistmover/playlistmover/logic/clients.py:58 | an unsupported platform is answered 400 with "`<member>` not supported." |
| Http.Transport.Send | playlistmover/playlistmover/logic/clients.py:25-49 | `send_get_request` / `send_post_request`: the request is appended to the log and the answer is the remote side's response to it |
| Clients.Split | playlistmover/playlistmover/logic/clients.py:77 | at least one part, and no part contains the separator |
| Clients.IdFromUri | playlistmover/playlistmover/logic/clients.py:73-77 | `_get_id_from_uri`: the id never contains `:` (`IdFromUriIsLastSegment` places it after the last `:`) |
| Clients.SplitJoin | playlistmover/playlistmover/logic/clients.py:77 | joining the parts with the separator gives the string back |
| Clients.SplitSingle | playlistmover/playlistmover/logic/clients.py:77 | a single part iff the separator does not occur, and it is then the whole string |
| Clients.SplitLast | playlistmover/playlistmover/logic/clients.py:77 | the last part ends the string and is preceded by the separator unless it is all of it |
| Clients.IdFromUriIsLastSegment | playlistmover/playlistmover/logic/clients.py:72-77 | the id is the text after the last `:`, or the whole URI when it has none; it never contains `:` |
| Clients.IdFromUriExample | playlistmover/playlistmover/logic/clients.py:72-77 | "spotify:user:alice" gives "alice" |
| Clients.AcceptTokenResponse | playlistmover/playlistmover/logic/clients.py:149-160 | a non-200 status, or a dict body lacking either token, is refused with Unauthorized carrying the body; accepted tokens are copied from the body and the headers are the bearer headers |
| Clients.Exchange | playlistmover/playlistmover/logic/clients.py:124-160 | at most one request is sent, and a successful exchange sent exactly one POST |
| Clients.StateMismatchRejected | playlistmover/playlistmover/logic/clients.py:128-132 | a nonce mismatch raises Unauthorized "User is unauthorized." and sends nothing |
| Clients.NoRequestBeforeStateCheck | playlistmover/playlistmover/logic/clients.py:124-146 | at most one request; one is sent only after code and state are read and the nonce matches; success implies it was sent |
| Clients.TokenRequestContents | playlistmover/playlistmover/logic/clients.py:133-146 | the token request is a POST to the token URL with code, grant_type and redirect_uri, and the header `Basic ` + `encode_string_base64("<client id>:<secret>")`, whose base64 decodes to `<client id>:<secret>` |
| Clients.ExchangeOutcome | playlistmover/playlistmover/logic/clients.py:146-160 | the outcome is the token endpoint's verdict; on success the tokens come from its body and the headers are exactly Authorization "Bearer <access>" and Content-Type "application/json" |
| Clients.StateMismatchResponse | playlistmover/playlistmover/logic/clients.py:131-132 | a nonce mismatch reaches the caller as 401 "User is unauthorized." |
| Clients.RejectedTokenResponseText | playlistmover/playlistmover/logic/clients.py:149-154 | a refused token response reaches the caller as 401, but its error text is not "User is unauthorized." |
| Clients.Skips | playlistmover/playlistmover/logic/clients.py:187 | a falsy entry is skipped; a truthy non-dict raises AttributeError; a dict is skipped iff its track is missing or falsy |
| Clients.ArtistNames | playlistmover/playlistmover/logic/clients.py:189-191 | succeeds iff every artist is a dict; one name per artist, its `name` or "" when absent |
| Clients.SongOf | playlistmover/playlistmover/logic/clients.py:186-199 | an entry yields a song exactly when it is not skipped |
| Clients.SongsOf | playlistmover/playlistmover/logic/clients.py:185-199 | a completed loop yields at most one song per entry (`SongsKeptInOrder` gives which) |
| Clients.SongDefaults | playlistmover/playlistmover/logic/clients.py:189-198 | a track giving only its name yields a song with no artists and images `[]` |
| Clients.SongFields | playlistmover/playlistmover/logic/clients.py:189-198 | a song's title is its track's `name`; its artists are `ArtistNames` of what iterating the track's `artists` gives, or none when the key is absent; its images are the album's `images`, or `[]` when the album or its `images` is absent |
| Clients.SongsOfRaisedPrefix | playlistmover/playlistmover/logic/clients.py:186-199 | an exception while reading entries ends the loop with that exception |
| Clients.SongsKeptInOrder | playlistmover/playlistmover/logic/clients.py:185-199 | one song per kept entry, in order, each read from that entry |
| Clients.SongsOfRaisesIff | playlistmover/playlistmover/logic/clients.py:186-199 | the loop raises exactly when some entry raises |
| Clients.CollectSongs | playlistmover/playlistmover/logic/clients.py:185-199 | the appending loop computes `SongsOf` |
| Clients.PlaylistOf | playlistmover/playlistmover/logic/clients.py:184-200 | a built playlist carries the summary's name as its title (`PlaylistOfContents` gives songs and images) |
| Clients.PlaylistOfContents | playlistmover/playlistmover/logic/clients.py:184-200 | the songs come from `tracks.items`; the images are the detail's own `images`, or `[]` when it has none |
| Clients.FetchPlaylist | playlistmover/playlistmover/logic/clients.py:173-201 | a missing `name` raises before anything is sent; at most one request, the GET of the summary's `id` playlist with the given headers; once it is sent, the result is `PlaylistOf` the summary's `name` and the response body |
| Clients.FetchPlaylists | playlistmover/playlistmover/logic/clients.py:91-93 | no more requests than summaries (`OnePlaylistPerSummary` gives one each on success) |
| Clients.FetchStep | playlistmover/playlistmover/logic/clients.py:91-93 | fetching one more summary extends the requests and playlists, and a failed fetch ends the list |
| Clients.FetchPlaylistsRaisedPrefix | playlistmover/playlistmover/logic/clients.py:91-93 | a failing fetch ends the whole list with its exception |
| Clients.OnePlaylistPerSummary | playlistmover/playlistmover/logic/clients.py:91-93 | on success, one playlist and one request per summary, in order, each from that summary's fetch |
| Clients.UserIdFrom | playlistmover/playlistmover/logic/clients.py:170 | a user id is `IdFromUri` of the profile's `uri`, which must be a str, and so contains no `:` |
| Clients.Summaries | playlistmover/playlistmover/logic/clients.py:90-92 | the summaries are read from the listing's `items` key, which must be there; a list there gives exactly its elements |
| Clients.ListPlaylists | playlistmover/playlistmover/logic/clients.py:86-93 | the profile request is always sent, and first |
| Clients.ListingFetches | playlistmover/playlistmover/logic/clients.py:86-93 | with the user id and the summaries read, the listing sends the profile and listing requests and then the fetches |
| Clients.ListingUsesHeaders | playlistmover/playlistmover/logic/clients.py:86-93 | after the exchange the profile request comes first, and every request is a GET with the bearer headers |
| Clients.AllFetchesUseHeaders | playlistmover/playlistmover/logic/clients.py:183 | every playlist fetch is a GET with the given headers |
| Clients.IssuedStateAccepted | playlistmover/playlistmover/logic/clients.py:119-131 | the nonce the client issues in its authorization parameters passes its own token exchange, which then sends the code |
| Clients.ArityError | playlistmover/playlistmover/logic/clients.py:193-200 | calling a two-field dataclass of models.py with three arguments raises a TypeError |
| Clients.SongOfAsWritten | playlistmover/playlistmover/logic/clients.py:186-199 | one iteration as written never yields a song: a kept entry raises the `Song` TypeError, a skipped one yields nothing |
| Clients.SongsOfAsWritten | playlistmover/playlistmover/logic/clients.py:185-199 | the loop as written, when it completes, has kept no song |
| Clients.PlaylistOfAsWritten | playlistmover/playlistmover/logic/clients.py:184-200 | `_get_playlist`'s result as written always raises |
| Clients.SongsAsWrittenRaiseArity | playlistmover/playlistmover/logic/clients.py:185-199 | against the two-field `Song` of models.py, wherever the intended loop completes the loop as written keeps no song or raises the `Song` TypeError |
| Clients.PlaylistAsWrittenNeverReturns | playlistmover/playlistmover/logic/clients.py:184-200 | as written, `_get_playlist` never returns a playlist, and wherever the intended `PlaylistOf` returns one it raises TypeError |
| Clients.EmptyPlaylistAsWritten | playlistmover/playlistmover/logic/clients.py:200 | a playlist with no tracks: the intended code returns it, the code as written raises the `Playlist` TypeError |
| Clients.SpotifyClient.constructor | playlistmover/playlistmover/logic/clients.py:66-69 | the nonce is "123456789abcdefg", tokens are "" and headers are empty |
| Clients.SpotifyClient.AuthorizationParams | playlistmover/playlistmover/logic/clients.py:114-120 | the five parameters in order, the state being the client's nonce |
| Clients.SpotifyClient.SetupAuthTokens | playlistmover/playlistmover/logic/clients.py:124-160 | the requests and outcome are those of `Exchange`; on failure tokens and headers are unchanged; on success they are the exchanged ones; the nonce never changes |
| Clients.SpotifyClient.GetPlaylist | playlistmover/playlistmover/logic/clients.py:173-201 | sends and returns exactly what `FetchPlaylist` with the client's headers specifies |
| Clients.SpotifyClient.FetchAll | playlistmover/playlistmover/logic/clients.py:91-93 | the playlists fetched one after another, as `FetchPlaylists` specifies |
| Clients.SpotifyClient.GetUserId | playlistmover/playlistmover/logic/clients.py:162-171 | one profile request with the client's headers, and the id read from its answer |
| Clients.SpotifyClient.ListAll | playlistmover/playlistmover/logic/clients.py:86-93 | the user id, the listing and the fetches, as `ListPlaylists` specifies |
| Clients.SpotifyClient.GetPlaylists | playlistmover/playlistmover/logic/clients.py:79-94 | the token exchange, then, only if it succeeded, the listing with the new headers; a failed exchange leaves tokens and headers unchanged |

## Left out

- HTTP I/O: `send_get_request` and `send_post_request` become `Transport.Send`. The server is a fixed function of the request, so a server whose answers change over time is not modelled. `response.json()` failing on a body that is not JSON is not modelled: every body is a JSON value.
- `os.getenv`: the client id and secret are `Option<string>` parameters, and `None` is formatted as "None".
- The authorization URL string: `PreparedRequest.prepare_url` URL-encodes the parameters and drops those whose value is None. That library code is not visible, so only the ordered parameter list is modelled (`AuthorizationParams`).
- The query parameter `"limit": 50` is carried as the string "50", the form in which it reaches the URL.
- `create_playlists`: it prints the result of a serializer `create` that the schema does not define, and returns the serializer's `validated_data`; neither is modelled.
- views.py, utils/clients.py, the older clients_enums.py and the tests are not part of this model.
- models.py declares `Song(title, artist)` and `Playlist(title, songs)` as two-field dataclasses. `_get_playlist` calls both with three arguments, which raises TypeError, so as written it never returns a playlist (see Findings). The model builds three-field records instead, as logic/clients.py and serializers.py describe them.
- logic/utils.py, which logic/clients.py imports `encode_string_base64` from, is not part of this model. The model assumes it behaves as the function of that name in utils/utils.py, which stands in for it.
- Floats, and framework behaviour not visible in the schema, are not modelled:
  - DRF's coercions (numeric strings accepted as integers, numbers accepted as strings) and its blank and whitespace handling;
  - its error messages.
  `CharField` and `IntegerField` accept exactly str and int.
- Dicts are pair lists in insertion order and `Lookup` takes the first pair with a key. This is what a dict holds whenever the keys are unique (`PyValues.LookupUnique`); the model does not require uniqueness of JSON objects it is given.
- `str.upper` is ASCII upper-casing; `repr` of strings escapes only quotes, backslashes and `\n \r \t`.
- Built-in error messages: their wording follows CPython's, except that the UnicodeEncodeError text leaves out the offending character.
- Utils.AsciiEncode: always reports "character in position k" for the first non-ASCII character, whereas CPython reports "characters in position i-j" for a run of two or more adjacent non-ASCII characters.
- `"{}".format(client_enum)`: this is the member's value, as for a str-mixin enum before Python 3.11. From Python 3.11 on it formats as `ClientEnum.X`.
- `base_url` of the base `Client`: it is always "" for the Spotify client and is left out.
- Clients.RejectedTokenResponseText: this follows the code rather than the test expectation. A rejected token response raises Unauthorized with two arguments, the message and the response JSON, so `str()` of it is the tuple rendering. The component test at tests/component_tests/test_playlist_api.py:51-60 expects the plain "User is unauthorized." for the case where the state matches.

## Findings

| source | as written | input that shows it | evidently intended | confidence | as-written member | corrected member |
|---|---|---|---|---|---|---|
| playlistmover/playlistmover/logic/clients.py:193-200 | `Song(song_title, artists, images)` and `Playlist(playlist_title, songs, images)` pass three arguments to the two-field dataclasses of models.py, so both raise TypeError | a playlist whose `tracks.items` is `[]`: `Playlist(...)` raises TypeError | build a playlist from its title, songs and images, as the serializer schema describes | high; not executed | Clients.PlaylistOfAsWritten | Clients.PlaylistOf |
