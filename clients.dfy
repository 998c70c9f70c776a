/** logic/clients.py: the client factory and the Spotify client. The client
    keeps the authorization nonce and, once the token exchange succeeds, the
    tokens and the bearer headers later requests carry; its reads of playlist
    data map Spotify's JSON onto playlists and songs. Network traffic goes
    through an `Http.Transport`, whose log records every request sent. */
module Clients {
  import opened PyValues
  import opened Http
  import opened ClientsEnums
  import Utils
  import LogicExceptions

  const InitialState := "123456789abcdefg"
  const AuthorizeUrl := "https://accounts.spotify.com/authorize"
  const TokenUrl := "https://accounts.spotify.com/api/token"
  const MeUrl := "https://api.spotify.com/v1/me"
  const Scope := "playlist-modify-private playlist-read-private"
  const PlaylistFields := "images,tracks.items(track(name,artists(name),album(images)))"
  const PlaylistsLimit := "50"
  const UnauthorizedMessage := "User is unauthorized."

  function UserPlaylistsUrl(userId: string): string {
    "https://api.spotify.com/v1/users/" + userId + "/playlists"
  }

  function PlaylistUrl(playlistId: string): string {
    "https://api.spotify.com/v1/playlists/" + playlistId
  }

  /** A song as `_get_playlist` builds it: the track name, the artist names
      and the album images, each as Spotify sent it. */
  datatype Song = Song(title: Json, artists: seq<Json>, images: Json)

  datatype Playlist = Playlist(title: Json, songs: seq<Song>, images: Json)

  /** What the token exchange stores on the client. */
  datatype Tokens = Tokens(access: Json, refresh: Json, headers: map<string, string>)

  /** The requests a step sends, in order, and how it ends. */
  datatype Step<T> = Step(sent: seq<HttpRequest>, out: Outcome<T>)

  // ---------------------------------------------------------------- factory

  /** The exception `get_client` raises for a platform it has no client for. */
  function NotSupported(e: ClientEnum): Exception {
    LogicExceptions.BadRequest("`" + e.Value() + "` not supported.")
  }

  /** `Client.get_client(client_enum)`: a fresh Spotify client for SPOTIFY,
      BadRequest for every other platform. */
  method GetClient(e: ClientEnum) returns (r: Outcome<SpotifyClient>)
    ensures r.Returned? <==> e == SPOTIFY
    ensures r.Returned? ==> fresh(r.value) && r.value.Fresh()
    ensures r.Raised? ==> r.exc == NotSupported(e)
  {
    if e == SPOTIFY {
      var client := new SpotifyClient();
      return Returned(client);
    }
    return Raised(NotSupported(e));
  }

  /** An unsupported platform is answered with 400 and
      "`<platform>` not supported.". */
  lemma UnsupportedPlatformResponse(e: ClientEnum)
    requires e != SPOTIFY
    ensures LogicExceptions.GetExceptionResponse(NotSupported(e)) ==
            Returned(Response(400, ErrorData("`" + e.Value() + "` not supported.")))
  {
    LogicExceptions.MessageIsErrorText("`" + e.Value() + "` not supported.");
  }

  // ---------------------------------------------------------------- URIs

  /** `s.split(sep)` for a one-character separator. */
  function Split(s: string, sep: char): (parts: seq<string>)
    ensures |parts| >= 1
    ensures forall k :: 0 <= k < |parts| ==> sep !in parts[k]
    decreases |s|
  {
    if s == [] then [""]
    else
      var rest := Split(s[1..], sep);
      if s[0] == sep then [""] + rest
      else
        var first := [s[0]] + rest[0];
        var parts := [first] + rest[1..];
        assert sep !in first by {
          forall i | 0 <= i < |first| ensures first[i] != sep {
            if i > 0 {
              assert first[i] == rest[0][i - 1];
            }
          }
        }
        assert forall k :: 1 <= k < |parts| ==> parts[k] == rest[k];
        parts
  }

  /** Joining the parts with the separator gives the string back. */
  lemma {:induction false} SplitJoin(s: string, sep: char)
    ensures Join(Split(s, sep), [sep]) == s
    decreases |s|
  {
    if s != [] {
      var rest := Split(s[1..], sep);
      SplitJoin(s[1..], sep);
      if s[0] == sep {
        assert Split(s, sep) == [""] + rest;
        assert ([""] + rest)[1..] == rest;
        assert s == [sep] + s[1..];
      } else {
        var first := [s[0]] + rest[0];
        assert Split(s, sep) == [first] + rest[1..];
        if |rest| == 1 {
          assert s == [s[0]] + s[1..];
        } else {
          assert ([first] + rest[1..])[1..] == rest[1..];
          assert s == [s[0]] + s[1..];
        }
      }
    }
  }

  /** There is a single part exactly when the separator does not occur, and
      that part is then the whole string. */
  lemma {:induction false} SplitSingle(s: string, sep: char)
    ensures |Split(s, sep)| == 1 <==> sep !in s
    ensures |Split(s, sep)| == 1 ==> Split(s, sep)[0] == s
    decreases |s|
  {
    if s != [] {
      var t := s[1..];
      assert s == [s[0]] + t;
      SplitSingle(t, sep);
      var rest := Split(t, sep);
      if s[0] != sep {
        if |rest| == 1 {
          assert Split(s, sep) == [[s[0]] + rest[0]];
        } else {
          assert |Split(s, sep)| == |rest|;
        }
      }
    }
  }

  /** The last part is the end of the string, preceded by a separator unless
      it is all of it. */
  lemma {:induction false} SplitLast(s: string, sep: char)
    ensures var parts := Split(s, sep); var last := parts[|parts| - 1];
      && |last| <= |s| && last == s[|s| - |last|..]
      && (|last| < |s| ==> s[|s| - |last| - 1] == sep)
    decreases |s|
  {
    if s != [] {
      var t := s[1..];
      SplitLast(t, sep);
      SplitSingle(t, sep);
      var rest := Split(t, sep);
      var last := rest[|rest| - 1];
      SplitLastPart(s, sep);
      if s[0] != sep && |rest| == 1 {
        assert s == [s[0]] + t;
      } else {
        assert |s| - |last| >= 1;
        assert t[|t| - |last|..] == s[|s| - |last|..];
        if |last| < |t| {
          assert t[|t| - |last| - 1] == s[|s| - |last| - 1];
        } else {
          assert s[|s| - |last| - 1] == s[0] == sep;
        }
      }
    }
  }

  /** The last part of a non-empty string, from the last part of its tail. */
  lemma SplitLastPart(s: string, sep: char)
    requires s != []
    ensures var parts := Split(s, sep); var rest := Split(s[1..], sep);
      parts[|parts| - 1] == if s[0] != sep && |rest| == 1 then [s[0]] + rest[0] else rest[|rest| - 1]
  {
  }

  /** `_get_id_from_uri(uri)`: `uri.split(":")[-1]`. */
  function IdFromUri(uri: string): (id: string)
    ensures ':' !in id
  {
    var parts := Split(uri, ':');
    parts[|parts| - 1]
  }

  /** The id is what follows the last `:` of the URI, or the whole URI when it
      holds no `:`; it never contains `:`. */
  lemma IdFromUriIsLastSegment(uri: string)
    ensures var id := IdFromUri(uri);
      && ':' !in id
      && |id| <= |uri| && id == uri[|uri| - |id|..]
      && (|id| < |uri| ==> uri[|uri| - |id| - 1] == ':')
      && (id == uri <==> ':' !in uri)
  {
    SplitLast(uri, ':');
    SplitSingle(uri, ':');
  }

  /** "spotify:user:alice" gives "alice". */
  lemma IdFromUriExample()
    ensures IdFromUri("spotify:user" + ":alice") == "alice"
  {
    assert ':' !in "alice";
    SplitSingle("alice", ':');
    assert Split(":alice", ':') == ["", "alice"] by { assert ":alice"[1..] == "alice"; }
    SplitPrefix("spotify:user", ":alice", ':');
  }

  /** Characters before a part that starts with the separator only grow the
      first parts. */
  lemma {:induction false} SplitPrefix(p: string, t: string, sep: char)
    requires |t| > 0 && t[0] == sep
    ensures var ps := Split(p + t, sep); var ts := Split(t, sep);
      |ts| >= 2 && |ps| >= |ts| && ps[|ps| - 1] == ts[|ts| - 1]
    decreases |p|
  {
    assert Split(t, sep) == [""] + Split(t[1..], sep);
    if p != [] {
      assert (p + t)[1..] == p[1..] + t;
      SplitPrefix(p[1..], t, sep);
      var rest := Split(p[1..] + t, sep);
      if p[0] == sep {
        assert Split(p + t, sep) == [""] + rest;
      } else {
        assert Split(p + t, sep) == [[p[0]] + rest[0]] + rest[1..];
      }
    } else {
      assert p + t == t;
    }
  }

  // ---------------------------------------------------------------- tokens

  /** The exception raised when the token endpoint refuses the code: the
      message and the endpoint's JSON. */
  function Rejected(body: Json): Exception {
    Exception(LogicUnauthorized, [JStr(UnauthorizedMessage), body])
  }

  /** The headers every later request carries. */
  function BearerHeaders(access: Json): map<string, string> {
    map["Authorization" := "Bearer " + Str(access), "Content-Type" := "application/json"]
  }

  /** The token request: the code, the grant type and the redirect URI as form
      fields, and Basic credentials. */
  function TokenRequest(code: string, redirectUri: string, credentials: string): HttpRequest {
    HttpRequest(POST, TokenUrl,
                map["code" := code, "grant_type" := "authorization_code", "redirect_uri" := redirectUri],
                map["Content-Type" := "application/x-www-form-urlencoded", "Authorization" := "Basic " + credentials])
  }

  /** The check of the token endpoint's answer and the tokens read from it:
      a status other than 200, or a missing token, is refused. */
  function AcceptTokenResponse(response: HttpResponse): (r: Outcome<Tokens>)
    ensures response.status != 200 ==> r == Raised(Rejected(response.body))
    ensures response.status == 200 && response.body.JObj? ==>
              (r.Returned? <==> HasKey(response.body.pairs, "access_token") && HasKey(response.body.pairs, "refresh_token"))
    ensures response.status == 200 && response.body.JObj? && r.Raised? ==> r == Raised(Rejected(response.body))
    ensures r.Returned? ==>
              && response.status == 200 && response.body.JObj?
              && ("access_token", r.value.access) in response.body.pairs
              && ("refresh_token", r.value.refresh) in response.body.pairs
              && r.value.headers == BearerHeaders(r.value.access)
  {
    var body := response.body;
    if response.status != 200 then Raised(Rejected(body))
    else
      var hasAccess :- Contains(body, "access_token");
      if !hasAccess then Raised(Rejected(body))
      else if !Contains(body, "refresh_token").value then Raised(Rejected(body))
      else
        var access :- Subscript(body, "access_token");
        var refresh := Subscript(body, "refresh_token").value;
        Returned(Tokens(access, refresh, BearerHeaders(access)))
  }

  function KeyErr(key: string): Exception {
    Exception(KeyError, [JStr(key)])
  }

  /** `_setup_auth_tokens(context, redirect_uri)` for a client holding the
      nonce `stored`, with `clientId` and `clientSecret` as the environment
      gives them: the requests it sends and the tokens it obtains. */
  function Exchange(stored: string, context: map<string, string>, redirectUri: string,
                    clientId: Option<string>, clientSecret: Option<string>,
                    respond: HttpRequest -> HttpResponse): (x: Step<Tokens>)
    ensures |x.sent| <= 1
    ensures x.out.Returned? ==> |x.sent| == 1 && x.sent[0].verb == POST
  {
    if "code" !in context then Step([], Raised(KeyErr("code")))
    else if "state" !in context then Step([], Raised(KeyErr("state")))
    else if context["state"] != stored then Step([], Raised(LogicExceptions.Unauthorized(UnauthorizedMessage)))
    else
      match Utils.EncodeStringBase64(FormatOptional(clientId) + ":" + FormatOptional(clientSecret))
      case Raised(e) => Step([], Raised(e))
      case Returned(credentials) =>
        var request := TokenRequest(context["code"], redirectUri, credentials);
        Step([request], AcceptTokenResponse(respond(request)))
  }

  /** A nonce that differs from the stored one is refused with
      "User is unauthorized." before anything is sent. */
  lemma StateMismatchRejected(stored: string, context: map<string, string>, redirectUri: string,
                              clientId: Option<string>, clientSecret: Option<string>,
                              respond: HttpRequest -> HttpResponse)
    requires "code" in context && "state" in context && context["state"] != stored
    ensures Exchange(stored, context, redirectUri, clientId, clientSecret, respond) ==
            Step([], Raised(LogicExceptions.Unauthorized(UnauthorizedMessage)))
  {
  }

  /** The token request goes out only after the code and the nonce are read
      and the nonce matches; at most one request is sent. */
  lemma NoRequestBeforeStateCheck(stored: string, context: map<string, string>, redirectUri: string,
                                  clientId: Option<string>, clientSecret: Option<string>,
                                  respond: HttpRequest -> HttpResponse)
    ensures var x := Exchange(stored, context, redirectUri, clientId, clientSecret, respond);
      && |x.sent| <= 1
      && (x.sent != [] ==> "code" in context && "state" in context && context["state"] == stored)
      && (x.out.Returned? ==> x.sent != [])
  {
  }

  /** The token request carries the code, the grant type and the redirect URI,
      and Basic credentials whose base64 decodes to `<client id>:<secret>`. */
  lemma TokenRequestContents(stored: string, context: map<string, string>, redirectUri: string,
                             clientId: Option<string>, clientSecret: Option<string>,
                             respond: HttpRequest -> HttpResponse)
    ensures var x := Exchange(stored, context, redirectUri, clientId, clientSecret, respond);
      x.sent != [] ==>
        var request := x.sent[0];
        var plain := FormatOptional(clientId) + ":" + FormatOptional(clientSecret);
        && request.verb == POST && request.url == TokenUrl
        && request.fields == map["code" := context["code"], "grant_type" := "authorization_code",
                                 "redirect_uri" := redirectUri]
        && request.headers.Keys == {"Content-Type", "Authorization"}
        && request.headers["Content-Type"] == "application/x-www-form-urlencoded"
        && Utils.EncodeStringBase64(plain).Returned?
        && request.headers["Authorization"] == "Basic " + Utils.EncodeStringBase64(plain).value
        && |request.headers["Authorization"]| >= 6
        && request.headers["Authorization"][..6] == "Basic "
        && var decoded := Utils.Decode(request.headers["Authorization"][6..]);
           decoded.Some? && |decoded.value| == |plain| &&
           forall i :: 0 <= i < |plain| ==> decoded.value[i] == plain[i] as int
  {
    var x := Exchange(stored, context, redirectUri, clientId, clientSecret, respond);
    if x.sent != [] {
      var plain := FormatOptional(clientId) + ":" + FormatOptional(clientSecret);
      Utils.EncodeStringBase64RoundTrip(plain);
      var credentials := Utils.EncodeStringBase64(plain).value;
      assert ("Basic " + credentials)[6..] == credentials;
    }
  }

  /** After a matching nonce, the outcome is the token endpoint's verdict:
      tokens copied from its JSON and bearer headers built from the access
      token, or Unauthorized carrying that JSON. */
  lemma ExchangeOutcome(stored: string, context: map<string, string>, redirectUri: string,
                        clientId: Option<string>, clientSecret: Option<string>,
                        respond: HttpRequest -> HttpResponse)
    ensures var x := Exchange(stored, context, redirectUri, clientId, clientSecret, respond);
      && (x.sent != [] ==> x.out == AcceptTokenResponse(respond(x.sent[0])))
      && (x.out.Returned? ==>
            var body := respond(x.sent[0]).body;
            && body.JObj?
            && ("access_token", x.out.value.access) in body.pairs
            && ("refresh_token", x.out.value.refresh) in body.pairs
            && x.out.value.headers["Authorization"] == "Bearer " + Str(x.out.value.access)
            && x.out.value.headers["Content-Type"] == "application/json"
            && x.out.value.headers.Keys == {"Authorization", "Content-Type"})
  {
  }

  /** A nonce mismatch reaches the caller as 401 with the error
      "User is unauthorized.". */
  lemma StateMismatchResponse(stored: string, context: map<string, string>, redirectUri: string,
                              clientId: Option<string>, clientSecret: Option<string>,
                              respond: HttpRequest -> HttpResponse)
    requires "code" in context && "state" in context && context["state"] != stored
    ensures var x := Exchange(stored, context, redirectUri, clientId, clientSecret, respond);
      x.out.Raised? &&
      LogicExceptions.GetExceptionResponse(x.out.exc) == Returned(Response(401, ErrorData(UnauthorizedMessage)))
  {
    LogicExceptions.MessageIsErrorText(UnauthorizedMessage);
  }

  /** A refusal by the token endpoint also reaches the caller as 401, but the
      exception holds the endpoint's JSON as a second argument, so its text
      is the tuple rendering, not "User is unauthorized." alone. */
  lemma RejectedTokenResponseText(response: HttpResponse)
    requires response.status != 200
    ensures AcceptTokenResponse(response).Raised?
    ensures var e := AcceptTokenResponse(response).exc;
      && LogicExceptions.GetExceptionResponse(e).Returned?
      && LogicExceptions.GetExceptionResponse(e).value.status == 401
      && LogicExceptions.GetExceptionResponse(e).value.data == ErrorData(ExceptionText(e))
      && ExceptionText(e) != UnauthorizedMessage
  {
    var e := AcceptTokenResponse(response).exc;
    assert |e.args| == 2;
    assert ExceptionText(e)[0] == '(';
  }

  // ---------------------------------------------------------------- tracks

  /** Whether the loop of `_get_playlist` skips an entry:
      `not song or not song.get("track")`. */
  function Skips(entry: Json): (r: Outcome<bool>)
    ensures !Truthy(entry) ==> r == Returned(true)
    ensures Truthy(entry) && !entry.JObj? ==> r == Raised(NoAttribute(entry, "get"))
    ensures Truthy(entry) && entry.JObj? ==>
              r == Returned(!HasKey(entry.pairs, "track") || !Truthy(Lookup(entry.pairs, "track").value))
  {
    if !Truthy(entry) then Returned(true)
    else
      var track :- Get(entry, "track", JNull);
      Returned(!Truthy(track))
  }

  /** `[artist.get("name", "") for artist in artists]`. */
  function ArtistNames(artists: seq<Json>): (r: Outcome<seq<Json>>)
    ensures r.Returned? <==> forall k :: 0 <= k < |artists| ==> artists[k].JObj?
    ensures r.Returned? ==> |r.value| == |artists|
    ensures r.Returned? ==> forall k :: 0 <= k < |artists| ==>
              if HasKey(artists[k].pairs, "name") then ("name", r.value[k]) in artists[k].pairs
              else r.value[k] == JStr("")
  {
    if artists == [] then Returned([])
    else
      var name :- Get(artists[0], "name", JStr(""));
      var rest :- ArtistNames(artists[1..]);
      assert forall k :: 1 <= k < |artists| ==> artists[k] == artists[1..][k - 1];
      Returned([name] + rest)
  }

  /** One iteration of the loop of `_get_playlist`: nothing for a skipped
      entry, else the song read from its track. */
  function SongOf(entry: Json): (r: Outcome<Option<Song>>)
    ensures r.Returned? ==> Skips(entry).Returned? && (r.value.None? <==> Skips(entry).value)
  {
    var skip :- Skips(entry);
    if skip then Returned(None)
    else
      var track := Subscript(entry, "track").value;
      var artistList :- Get(track, "artists", JArr([]));
      var artists :- Iterate(artistList);
      var names :- ArtistNames(artists);
      var title :- Subscript(track, "name");
      var album := Get(track, "album", JObj([])).value;
      var images :- Get(album, "images", JArr([]));
      Returned(Some(Song(title, names, images)))
  }

  /** A track giving only its name yields a song with no artists and no
      images. */
  lemma SongDefaults(name: Json)
    ensures SongOf(JObj([("track", JObj([("name", name)]))])) == Returned(Some(Song(name, [], JArr([]))))
  {
    var track := JObj([("name", name)]);
    var entry := JObj([("track", track)]);
    LookupAt(entry.pairs, "track", 0);
    LookupAt(track.pairs, "name", 0);
    assert !HasKey(track.pairs, "artists") && !HasKey(track.pairs, "album");
    assert Skips(entry) == Returned(false);
  }

  /** What a kept entry yields: the track's name, one name per artist
      (defaulting to ""), and the album's images (defaulting to []). */
  lemma SongFields(entry: Json)
    requires SongOf(entry).Returned? && SongOf(entry).value.Some?
    ensures var song := SongOf(entry).value.value;
      && entry.JObj? && HasKey(entry.pairs, "track")
      && var track := Lookup(entry.pairs, "track").value;
      && track.JObj? && HasKey(track.pairs, "name") && song.title == Lookup(track.pairs, "name").value
      && (!HasKey(track.pairs, "artists") ==> song.artists == [])
      && (HasKey(track.pairs, "artists") ==>
            var listed := Iterate(Lookup(track.pairs, "artists").value);
            listed.Returned? && ArtistNames(listed.value) == Returned(song.artists))
      && (!HasKey(track.pairs, "album") ==> song.images == JArr([]))
      && (HasKey(track.pairs, "album") ==>
            var album := Lookup(track.pairs, "album").value;
            && album.JObj?
            && song.images == if HasKey(album.pairs, "images") then Lookup(album.pairs, "images").value else JArr([]))
  {
  }

  /** The songs of the entries, as the loop appends them. */
  function SongsOf(entries: seq<Json>): (r: Outcome<seq<Song>>)
    ensures r.Returned? ==> |r.value| <= |entries|
    decreases |entries|
  {
    if entries == [] then Returned([])
    else
      var songs :- SongsOf(entries[..|entries| - 1]);
      var song :- SongOf(entries[|entries| - 1]);
      Returned(if song.Some? then songs + [song.value] else songs)
  }

  /** The entries the loop keeps, in order. */
  function KeptEntries(entries: seq<Json>): seq<Json>
    decreases |entries|
  {
    if entries == [] then []
    else
      var last := entries[|entries| - 1];
      KeptEntries(entries[..|entries| - 1]) + (if Skips(last) == Returned(false) then [last] else [])
  }

  /** Once the entries up to `n` raise, so do all of them, with the same
      exception. */
  lemma {:induction false} SongsOfRaisedPrefix(entries: seq<Json>, n: nat)
    requires n <= |entries| && SongsOf(entries[..n]).Raised?
    ensures SongsOf(entries) == SongsOf(entries[..n])
    decreases |entries|
  {
    if n < |entries| {
      var init := entries[..|entries| - 1];
      assert init[..n] == entries[..n];
      SongsOfRaisedPrefix(init, n);
    } else {
      assert entries[..n] == entries;
    }
  }

  /** When the loop completes, there is one song per kept entry, in order,
      each read from that entry. */
  lemma {:induction false} SongsKeptInOrder(entries: seq<Json>)
    requires SongsOf(entries).Returned?
    ensures |SongsOf(entries).value| == |KeptEntries(entries)|
    ensures forall k :: 0 <= k < |KeptEntries(entries)| ==>
              SongOf(KeptEntries(entries)[k]) == Returned(Some(SongsOf(entries).value[k]))
    decreases |entries|
  {
    if entries != [] {
      var init := entries[..|entries| - 1];
      var last := entries[|entries| - 1];
      SongsKeptInOrder(init);
      var songs := SongsOf(init).value;
      var song := SongOf(last);
      assert song.Returned?;
      assert song.value.Some? <==> Skips(last) == Returned(false);
    }
  }

  /** The loop raises exactly when some entry raises. */
  lemma {:induction false} SongsOfRaisesIff(entries: seq<Json>)
    ensures SongsOf(entries).Raised? <==> exists k :: 0 <= k < |entries| && SongOf(entries[k]).Raised?
    decreases |entries|
  {
    if entries != [] {
      var init := entries[..|entries| - 1];
      SongsOfRaisesIff(init);
      if exists k :: 0 <= k < |init| && SongOf(init[k]).Raised? {
        var k :| 0 <= k < |init| && SongOf(init[k]).Raised?;
        assert entries[k] == init[k];
      }
      if exists k :: 0 <= k < |entries| && SongOf(entries[k]).Raised? {
        var k :| 0 <= k < |entries| && SongOf(entries[k]).Raised?;
        if k < |entries| - 1 {
          assert init[k] == entries[k];
        }
      }
    }
  }

  /** The `for` loop of `_get_playlist` that builds `songs`. */
  method CollectSongs(entries: seq<Json>) returns (r: Outcome<seq<Song>>)
    ensures r == SongsOf(entries)
  {
    var songs: seq<Song> := [];
    var i := 0;
    while i < |entries|
      invariant 0 <= i <= |entries|
      invariant SongsOf(entries[..i]) == Returned(songs)
    {
      assert entries[..i + 1][..i] == entries[..i];
      var song := SongOf(entries[i]);
      if song.Raised? {
        SongsOfRaisedPrefix(entries, i + 1);
        return Raised(song.exc);
      }
      if song.value.Some? {
        songs := songs + [song.value.value];
      }
      i := i + 1;
    }
    assert entries[..i] == entries;
    r := Returned(songs);
  }

  /** The playlist `_get_playlist` builds from the playlist's JSON `detail`:
      the songs of `detail["tracks"]["items"]`, and `detail`'s images. */
  function PlaylistOf(title: Json, detail: Json): (r: Outcome<Playlist>)
    ensures r.Returned? ==> r.value.title == title
  {
    var tracks :- Subscript(detail, "tracks");
    var items :- Subscript(tracks, "items");
    var entries :- Iterate(items);
    var songs :- SongsOf(entries);
    var images := Get(detail, "images", JArr([])).value;
    Returned(Playlist(title, songs, images))
  }

  /** A playlist's songs come from its track items, and its images default to
      [] when the playlist has none. */
  lemma PlaylistOfContents(title: Json, detail: Json)
    requires PlaylistOf(title, detail).Returned?
    ensures var p := PlaylistOf(title, detail).value;
      && p.title == title
      && detail.JObj? && HasKey(detail.pairs, "tracks")
      && var tracks := Lookup(detail.pairs, "tracks").value;
      && tracks.JObj? && HasKey(tracks.pairs, "items")
      && var items := Lookup(tracks.pairs, "items").value;
      && (items.JArr? ==> SongsOf(items.items) == Returned(p.songs))
      && (!HasKey(detail.pairs, "images") ==> p.images == JArr([]))
      && (HasKey(detail.pairs, "images") ==> p.images == Lookup(detail.pairs, "images").value)
  {
  }

  // ---------------------------------------------------------------- records as declared

  /* models.py declares `Song(title, artist)` and `Playlist(title, songs)`
     as dataclasses of two fields, while `_get_playlist` calls both with
     three positional arguments. The members below follow the code as
     written against those declarations; the rest of the model builds
     three-field records, as the serializer schema describes them. */

  /** The TypeError a two-field dataclass raises when given three
      positional arguments. */
  function ArityError(cls: string): (e: Exception)
    ensures e.cls == TypeError
  {
    TypeErr(cls + ".__init__() takes 3 positional arguments but 4 were given")
  }

  /** One iteration of the loop as written: the reads of `SongOf`, then the
      call of the two-field `Song`, which raises. */
  function SongOfAsWritten(entry: Json): (r: Outcome<Option<Song>>)
    ensures r.Returned? ==> r.value.None? && SongOf(entry) == Returned(None)
    ensures SongOf(entry).Returned? && SongOf(entry).value.Some? ==> r == Raised(ArityError("Song"))
  {
    var song :- SongOf(entry);
    if song.Some? then Raised(ArityError("Song")) else Returned(None)
  }

  /** The loop of `_get_playlist` as written, which stops at the first entry
      whose iteration raises. */
  function SongsOfAsWritten(entries: seq<Json>): (r: Outcome<seq<Song>>)
    ensures r.Returned? ==> r.value == []
    decreases |entries|
  {
    if entries == [] then Returned([])
    else
      var songs :- SongsOfAsWritten(entries[..|entries| - 1]);
      // an iteration that returns skipped its entry, so appended nothing
      var skipped :- SongOfAsWritten(entries[|entries| - 1]);
      Returned(songs)
  }

  /** `_get_playlist`'s result as written: the reads of `PlaylistOf`, then the
      call of the two-field `Playlist`, which raises. */
  function PlaylistOfAsWritten(title: Json, detail: Json): (r: Outcome<Playlist>)
    ensures r.Raised?
  {
    var tracks :- Subscript(detail, "tracks");
    var items :- Subscript(tracks, "items");
    var entries :- Iterate(items);
    var songs :- SongsOfAsWritten(entries);
    Raised(ArityError("Playlist"))
  }

  /** Wherever the intended loop completes, the loop as written either kept
      no song or stopped at the first kept one with the `Song` TypeError. */
  lemma {:induction false} SongsAsWrittenRaiseArity(entries: seq<Json>)
    requires SongsOf(entries).Returned?
    ensures SongsOfAsWritten(entries) == Returned([]) || SongsOfAsWritten(entries) == Raised(ArityError("Song"))
    decreases |entries|
  {
    if entries != [] {
      SongsAsWrittenRaiseArity(entries[..|entries| - 1]);
    }
  }

  /** As written, `_get_playlist` never returns a playlist: wherever the
      intended version returns one, it raises TypeError instead. */
  lemma PlaylistAsWrittenNeverReturns(title: Json, detail: Json)
    ensures PlaylistOfAsWritten(title, detail).Raised?
    ensures PlaylistOf(title, detail).Returned? ==>
              PlaylistOfAsWritten(title, detail).exc.cls == TypeError
  {
    if PlaylistOf(title, detail).Returned? {
      var entries := Iterate(Subscript(Subscript(detail, "tracks").value, "items").value).value;
      SongsAsWrittenRaiseArity(entries);
    }
  }

  /** A playlist with no tracks: the intended code returns it, the code as
      written raises the `Playlist` TypeError. */
  lemma EmptyPlaylistAsWritten()
    ensures PlaylistOf(JStr("p"), JObj([("tracks", JObj([("items", JArr([]))]))])) ==
            Returned(Playlist(JStr("p"), [], JArr([])))
    ensures PlaylistOfAsWritten(JStr("p"), JObj([("tracks", JObj([("items", JArr([]))]))])) ==
            Raised(ArityError("Playlist"))
  {
    var detail := JObj([("tracks", JObj([("items", JArr([]))]))]);
    LookupAt(detail.pairs, "tracks", 0);
    LookupAt(detail.pairs[0].1.pairs, "items", 0);
    assert !HasKey(detail.pairs, "images");
  }

  // ---------------------------------------------------------------- playlists

  function PlaylistRequest(playlistId: Json, headers: map<string, string>): HttpRequest {
    HttpRequest(GET, PlaylistUrl(Str(playlistId)), map["fields" := PlaylistFields], headers)
  }

  /** `_get_playlist(playlist_data)` with the given headers: the name and id
      are read before the playlist is fetched. */
  function FetchPlaylist(headers: map<string, string>, summary: Json,
                         respond: HttpRequest -> HttpResponse): (x: Step<Playlist>)
    ensures Subscript(summary, "name").Raised? ==> x == Step([], Raised(Subscript(summary, "name").exc))
    ensures x.sent != [] ==> Subscript(summary, "id").Returned? &&
                             x.sent == [PlaylistRequest(Subscript(summary, "id").value, headers)]
    ensures x.sent != [] ==> Subscript(summary, "name").Returned? &&
                             x.out == PlaylistOf(Subscript(summary, "name").value, respond(x.sent[0]).body)
    ensures x.sent == [] ==> x.out.Raised?
    ensures |x.sent| <= 1
  {
    match Subscript(summary, "name")
    case Raised(e) => Step([], Raised(e))
    case Returned(title) =>
      match Subscript(summary, "id")
      case Raised(e) => Step([], Raised(e))
      case Returned(playlistId) =>
        var request := PlaylistRequest(playlistId, headers);
        Step([request], PlaylistOf(title, respond(request).body))
  }

  /** `[self._get_playlist(playlist) for playlist in summaries]`. */
  function FetchPlaylists(headers: map<string, string>, summaries: seq<Json>,
                          respond: HttpRequest -> HttpResponse): (x: Step<seq<Playlist>>)
    ensures |x.sent| <= |summaries|
    decreases |summaries|
  {
    if summaries == [] then Step([], Returned([]))
    else
      var previous := FetchPlaylists(headers, summaries[..|summaries| - 1], respond);
      if previous.out.Raised? then previous
      else
        var one := FetchPlaylist(headers, summaries[|summaries| - 1], respond);
        Step(previous.sent + one.sent,
             if one.out.Raised? then Raised(one.out.exc) else Returned(previous.out.value + [one.out.value]))
  }

  /** One more summary: the fetches so far, then this one. */
  lemma FetchPlaylistsSnoc(headers: map<string, string>, summaries: seq<Json>,
                           respond: HttpRequest -> HttpResponse, i: nat)
    requires i < |summaries|
    ensures var previous := FetchPlaylists(headers, summaries[..i], respond);
      var one := FetchPlaylist(headers, summaries[i], respond);
      FetchPlaylists(headers, summaries[..i + 1], respond) ==
        if previous.out.Raised? then previous
        else Step(previous.sent + one.sent,
                  if one.out.Raised? then Raised(one.out.exc) else Returned(previous.out.value + [one.out.value]))
  {
    assert summaries[..i + 1][..i] == summaries[..i];
  }

  /** The fetches of the first `i + 1` summaries, given those of the first
      `i` succeeded with `done` and the next fetch went as `one`; a failed
      fetch ends the whole list. */
  lemma FetchStep(headers: map<string, string>, summaries: seq<Json>, respond: HttpRequest -> HttpResponse,
                  i: nat, done: seq<Playlist>, one: Step<Playlist>)
    requires i < |summaries|
    requires FetchPlaylists(headers, summaries[..i], respond).out == Returned(done)
    requires one == FetchPlaylist(headers, summaries[i], respond)
    ensures var sent := FetchPlaylists(headers, summaries[..i], respond).sent + one.sent;
      && (one.out.Raised? ==> FetchPlaylists(headers, summaries, respond) == Step(sent, Raised(one.out.exc)))
      && (one.out.Returned? ==> FetchPlaylists(headers, summaries[..i + 1], respond) == Step(sent, Returned(done + [one.out.value])))
  {
    FetchPlaylistsSnoc(headers, summaries, respond, i);
    if one.out.Raised? {
      FetchPlaylistsRaisedPrefix(headers, summaries, respond, i + 1);
    }
  }

  lemma {:induction false} FetchPlaylistsRaisedPrefix(headers: map<string, string>, summaries: seq<Json>,
                                                      respond: HttpRequest -> HttpResponse, n: nat)
    requires n <= |summaries| && FetchPlaylists(headers, summaries[..n], respond).out.Raised?
    ensures FetchPlaylists(headers, summaries, respond) == FetchPlaylists(headers, summaries[..n], respond)
    decreases |summaries|
  {
    if n < |summaries| {
      var init := summaries[..|summaries| - 1];
      assert init[..n] == summaries[..n];
      FetchPlaylistsRaisedPrefix(headers, init, respond, n);
    } else {
      assert summaries[..n] == summaries;
    }
  }

  /** When every fetch succeeds there is one playlist per summary, in order,
      each fetched with one request. */
  lemma {:induction false} OnePlaylistPerSummary(headers: map<string, string>, summaries: seq<Json>,
                                                 respond: HttpRequest -> HttpResponse)
    requires FetchPlaylists(headers, summaries, respond).out.Returned?
    ensures var x := FetchPlaylists(headers, summaries, respond);
      && |x.out.value| == |summaries| && |x.sent| == |summaries|
      && forall k :: 0 <= k < |summaries| ==>
           var one := FetchPlaylist(headers, summaries[k], respond);
           one.out == Returned(x.out.value[k]) && one.sent == [x.sent[k]]
    decreases |summaries|
  {
    if summaries != [] {
      var n := |summaries|;
      var init := summaries[..n - 1];
      OnePlaylistPerSummary(headers, init, respond);
      var previous := FetchPlaylists(headers, init, respond);
      var one := FetchPlaylist(headers, summaries[n - 1], respond);
      var x := FetchPlaylists(headers, summaries, respond);
      assert previous.out.Returned? && one.out.Returned?;
      assert x.sent == previous.sent + one.sent;
      assert x.out.value == previous.out.value + [one.out.value];
      forall k | 0 <= k < n
        ensures FetchPlaylist(headers, summaries[k], respond).out == Returned(x.out.value[k])
        ensures FetchPlaylist(headers, summaries[k], respond).sent == [x.sent[k]]
      {
        if k < n - 1 {
          assert summaries[k] == init[k];
          assert x.sent[k] == previous.sent[k];
          assert x.out.value[k] == previous.out.value[k];
        }
      }
    }
  }

  /** The user id `_get_user_id` reads from the profile: the last segment of
      its `uri`. */
  function UserIdFrom(profile: Json): (r: Outcome<string>)
    ensures r.Returned? ==> Subscript(profile, "uri").Returned? && Subscript(profile, "uri").value.JStr? &&
                            r.value == IdFromUri(Subscript(profile, "uri").value.s)
    ensures r.Returned? ==> ':' !in r.value
  {
    var uri :- Subscript(profile, "uri");
    if uri.JStr? then
      IdFromUriIsLastSegment(uri.s);
      Returned(IdFromUri(uri.s))
    else Raised(NoAttribute(uri, "split"))
  }

  function MeRequest(headers: map<string, string>): HttpRequest {
    HttpRequest(GET, MeUrl, map[], headers)
  }

  function UserPlaylistsRequest(userId: string, headers: map<string, string>): HttpRequest {
    HttpRequest(GET, UserPlaylistsUrl(userId), map["limit" := PlaylistsLimit], headers)
  }

  /** The playlist summaries of a listing: `response_json["items"]`. */
  function Summaries(listing: Json): (r: Outcome<seq<Json>>)
    ensures r.Returned? ==> listing.JObj? && HasKey(listing.pairs, "items")
    ensures listing.JObj? && HasKey(listing.pairs, "items") && Lookup(listing.pairs, "items").value.JArr? ==>
              r == Returned(Lookup(listing.pairs, "items").value.items)
  {
    var items :- Subscript(listing, "items");
    Iterate(items)
  }

  /** What `get_playlists` does once the tokens are set: read the user id,
      list the user's playlists, fetch each. */
  function ListPlaylists(headers: map<string, string>, respond: HttpRequest -> HttpResponse): (x: Step<seq<Playlist>>)
    ensures 1 <= |x.sent| && x.sent[0] == MeRequest(headers)
  {
    var me := MeRequest(headers);
    match UserIdFrom(respond(me).body)
    case Raised(e) => Step([me], Raised(e))
    case Returned(userId) =>
      var listing := UserPlaylistsRequest(userId, headers);
      match Summaries(respond(listing).body)
      case Raised(e) => Step([me, listing], Raised(e))
      case Returned(summaries) =>
        var fetched := FetchPlaylists(headers, summaries, respond);
        Step([me, listing] + fetched.sent, fetched.out)
  }

  /** How a listing goes once the user id and the summaries are known: the
      profile and listing requests, then the playlist fetches. */
  lemma ListingFetches(headers: map<string, string>, respond: HttpRequest -> HttpResponse,
                       userId: string, summaries: seq<Json>)
    requires UserIdFrom(respond(MeRequest(headers)).body) == Returned(userId)
    requires Summaries(respond(UserPlaylistsRequest(userId, headers)).body) == Returned(summaries)
    ensures var fetched := FetchPlaylists(headers, summaries, respond);
      ListPlaylists(headers, respond) ==
        Step([MeRequest(headers), UserPlaylistsRequest(userId, headers)] + fetched.sent, fetched.out)
  {
  }

  /** The log after the profile request, the listing request and the
      fetches, regrouped as the listing's own requests. Serves `ListAll`,
      whose proof is costly with the regrouping left to the solver. */
  lemma LogAfterListing(log: seq<HttpRequest>, me: HttpRequest, listing: HttpRequest, fetched: seq<HttpRequest>)
    ensures log + [me] + [listing] + fetched == log + ([me, listing] + fetched)
  {
  }

  /** Every request in `sent` is a GET carrying `headers`. */
  predicate AllGetWith(sent: seq<HttpRequest>, headers: map<string, string>) {
    forall k :: 0 <= k < |sent| ==> sent[k].verb == GET && sent[k].headers == headers
  }

  lemma AllGetWithConcat(a: seq<HttpRequest>, b: seq<HttpRequest>, headers: map<string, string>)
    requires AllGetWith(a, headers) && AllGetWith(b, headers)
    ensures AllGetWith(a + b, headers)
  {
    forall k | 0 <= k < |a + b| ensures (a + b)[k].verb == GET && (a + b)[k].headers == headers {
      if k >= |a| {
        assert (a + b)[k] == b[k - |a|];
      }
    }
  }

  /** Every request after the exchange is a GET carrying the bearer headers,
      starting with the profile request. */
  lemma ListingUsesHeaders(headers: map<string, string>, respond: HttpRequest -> HttpResponse)
    ensures var x := ListPlaylists(headers, respond);
      && |x.sent| >= 1
      && x.sent[0] == MeRequest(headers)
      && AllGetWith(x.sent, headers)
  {
    var me := MeRequest(headers);
    var user := UserIdFrom(respond(me).body);
    if user.Returned? {
      var listing := UserPlaylistsRequest(user.value, headers);
      var summaries := Summaries(respond(listing).body);
      if summaries.Returned? {
        var fetched := FetchPlaylists(headers, summaries.value, respond);
        AllFetchesUseHeaders(headers, summaries.value, respond);
        assert AllGetWith([me, listing], headers);
        AllGetWithConcat([me, listing], fetched.sent, headers);
      } else {
        assert AllGetWith([me, listing], headers);
      }
    } else {
      assert AllGetWith([me], headers);
    }
  }

  /** Each playlist fetch is a GET carrying the given headers. */
  lemma {:induction false} AllFetchesUseHeaders(headers: map<string, string>, summaries: seq<Json>,
                                                respond: HttpRequest -> HttpResponse)
    ensures AllGetWith(FetchPlaylists(headers, summaries, respond).sent, headers)
    decreases |summaries|
  {
    if summaries != [] {
      var init := summaries[..|summaries| - 1];
      AllFetchesUseHeaders(headers, init, respond);
      var previous := FetchPlaylists(headers, init, respond);
      if previous.out.Returned? {
        var one := FetchPlaylist(headers, summaries[|summaries| - 1], respond);
        assert AllGetWith(one.sent, headers);
        AllGetWithConcat(previous.sent, one.sent, headers);
      }
    }
  }

  // ---------------------------------------------------------------- the client

  class SpotifyClient {
    var state: string
    var accessToken: Json
    var refreshToken: Json
    var headers: map<string, string>

    /** The state of a client that has not been through the token exchange. */
    predicate Fresh()
      reads this
    {
      state == InitialState && accessToken == JStr("") && refreshToken == JStr("") && headers == map[]
    }

    /** `SpotifyClient()`. */
    constructor ()
      ensures Fresh()
    {
      state := InitialState;
      accessToken := JStr("");
      refreshToken := JStr("");
      headers := map[];
    }

    /** The query parameters `get_authorization_url` sends to the authorize
      endpoint, in order; the client id is whatever the environment holds. */
    function AuthorizationParams(clientId: Option<string>, redirectUri: string): (params: seq<(string, Option<string>)>)
      reads this
      ensures |params| == 5
      ensures params[0] == ("response_type", Some("code"))
      ensures params[1] == ("client_id", clientId)
      ensures params[2] == ("scope", Some(Scope))
      ensures params[3] == ("redirect_uri", Some(redirectUri))
      ensures params[4] == ("state", Some(state))
    {
      [("response_type", Some("code")), ("client_id", clientId), ("scope", Some(Scope)),
       ("redirect_uri", Some(redirectUri)), ("state", Some(state))]
    }

    /** `_setup_auth_tokens(context, redirect_uri)`: the nonce is checked
      before anything is sent; on any failure the tokens and headers are left
      as they were. */
    method SetupAuthTokens(context: map<string, string>, redirectUri: string,
                           clientId: Option<string>, clientSecret: Option<string>, net: Transport)
      returns (r: Outcome<()>)
      modifies this, net
      ensures var x := Exchange(old(state), context, redirectUri, clientId, clientSecret, net.respond);
        && net.log == old(net.log) + x.sent
        && state == old(state)
        && (x.out.Raised? ==>
              && r == Raised(x.out.exc)
              && accessToken == old(accessToken) && refreshToken == old(refreshToken) && headers == old(headers))
        && (x.out.Returned? ==>
              && r == Returned(())
              && accessToken == x.out.value.access && refreshToken == x.out.value.refresh
              && headers == x.out.value.headers)
    {
      if "code" !in context {
        return Raised(KeyErr("code"));
      }
      var code := context["code"];
      if "state" !in context {
        return Raised(KeyErr("state"));
      }
      if context["state"] != state {
        return Raised(LogicExceptions.Unauthorized(UnauthorizedMessage));
      }
      var credentials := Utils.EncodeStringBase64(FormatOptional(clientId) + ":" + FormatOptional(clientSecret));
      if credentials.Raised? {
        return Raised(credentials.exc);
      }
      var response := net.Send(TokenRequest(code, redirectUri, credentials.value));
      var tokens := AcceptTokenResponse(response);
      if tokens.Raised? {
        return Raised(tokens.exc);
      }
      accessToken := tokens.value.access;
      refreshToken := tokens.value.refresh;
      headers := tokens.value.headers;
      r := Returned(());
    }

    /** `_get_playlist(playlist_data)`. */
    method GetPlaylist(summary: Json, net: Transport) returns (r: Outcome<Playlist>)
      modifies net
      ensures var x := FetchPlaylist(headers, summary, net.respond);
        net.log == old(net.log) + x.sent && r == x.out
    {
      var title := Subscript(summary, "name");
      if title.Raised? {
        return Raised(title.exc);
      }
      var playlistId := Subscript(summary, "id");
      if playlistId.Raised? {
        return Raised(playlistId.exc);
      }
      var response := net.Send(PlaylistRequest(playlistId.value, headers));
      var detail := response.body;
      var tracks := Subscript(detail, "tracks");
      if tracks.Raised? {
        return Raised(tracks.exc);
      }
      var items := Subscript(tracks.value, "items");
      if items.Raised? {
        return Raised(items.exc);
      }
      var entries := Iterate(items.value);
      if entries.Raised? {
        return Raised(entries.exc);
      }
      var songs := CollectSongs(entries.value);
      if songs.Raised? {
        return Raised(songs.exc);
      }
      var images := Get(detail, "images", JArr([])).value;
      r := Returned(Playlist(title.value, songs.value, images));
    }

    /** `[self._get_playlist(playlist) for playlist in response_json["items"]]`:
      the playlists fetched one after the other. */
    method FetchAll(summaries: seq<Json>, net: Transport) returns (r: Outcome<seq<Playlist>>)
      modifies net
      ensures var x := FetchPlaylists(headers, summaries, net.respond);
        net.log == old(net.log) + x.sent && r == x.out
    {
      var h := headers;
      var playlists: seq<Playlist> := [];
      var i := 0;
      while i < |summaries|
        invariant 0 <= i <= |summaries|
        invariant var x := FetchPlaylists(h, summaries[..i], net.respond);
          net.log == old(net.log) + x.sent && x.out == Returned(playlists)
      {
        ghost var before := net.log;
        var playlist := GetPlaylist(summaries[i], net);
        FetchStep(h, summaries, net.respond, i, playlists, FetchPlaylist(h, summaries[i], net.respond));
        Regroup(old(net.log), FetchPlaylists(h, summaries[..i], net.respond).sent, net.log[|before|..]);
        if playlist.Raised? {
          return Raised(playlist.exc);
        }
        playlists := playlists + [playlist.value];
        i := i + 1;
      }
      assert summaries[..i] == summaries;
      r := Returned(playlists);
    }

    /** `_get_user_id()`: the id at the end of the profile's URI. */
    method GetUserId(net: Transport) returns (r: Outcome<string>)
      modifies net
      ensures net.log == old(net.log) + [MeRequest(headers)]
      ensures r == UserIdFrom(net.respond(MeRequest(headers)).body)
    {
      var response := net.Send(MeRequest(headers));
      r := UserIdFrom(response.body);
    }

    /** The part of `get_playlists` after the token exchange: the user id,
      the listing of the user's playlists, then each playlist. */
    method ListAll(net: Transport) returns (r: Outcome<seq<Playlist>>)
      modifies net
      ensures var x := ListPlaylists(headers, net.respond);
        net.log == old(net.log) + x.sent && r == x.out
    {
      ghost var log := net.log;
      var userId := GetUserId(net);
      if userId.Raised? {
        return Raised(userId.exc);
      }
      var request := UserPlaylistsRequest(userId.value, headers);
      var listing := net.Send(request);
      var summaries := Summaries(listing.body);
      if summaries.Raised? {
        return Raised(summaries.exc);
      }
      ListingFetches(headers, net.respond, userId.value, summaries.value);
      r := FetchAll(summaries.value, net);
      LogAfterListing(log, MeRequest(headers), request, net.log[|log| + 2..]);
    }

    /** `get_playlists(context, redirect_uri)`: the token exchange, then the
      listing with the new headers; tokens and headers change only through the
      exchange. */
    method GetPlaylists(context: map<string, string>, redirectUri: string,
                        clientId: Option<string>, clientSecret: Option<string>, net: Transport)
      returns (r: Outcome<seq<Playlist>>)
      modifies this, net
      ensures var x := Exchange(old(state), context, redirectUri, clientId, clientSecret, net.respond);
        && state == old(state)
        && (x.out.Raised? ==>
              && net.log == old(net.log) + x.sent
              && r == Raised(x.out.exc)
              && accessToken == old(accessToken) && refreshToken == old(refreshToken) && headers == old(headers))
        && (x.out.Returned? ==>
              var listed := ListPlaylists(x.out.value.headers, net.respond);
              && net.log == old(net.log) + x.sent + listed.sent
              && r == listed.out
              && accessToken == x.out.value.access && refreshToken == x.out.value.refresh
              && headers == x.out.value.headers)
    {
      var setup := SetupAuthTokens(context, redirectUri, clientId, clientSecret, net);
      if setup.Raised? {
        return Raised(setup.exc);
      }
      r := ListAll(net);
    }
  }

  /** A nonce issued in the authorization parameters is accepted by the token
      exchange of the same client. */
  lemma IssuedStateAccepted(client: SpotifyClient, clientId: Option<string>, redirectUri: string,
                            code: string, clientSecret: Option<string>, respond: HttpRequest -> HttpResponse)
    requires Utils.IsAscii(FormatOptional(clientId) + ":" + FormatOptional(clientSecret))
    ensures var issued := client.AuthorizationParams(clientId, redirectUri)[4].1.value;
      var x := Exchange(client.state, map["code" := code, "state" := issued], redirectUri, clientId, clientSecret, respond);
      |x.sent| == 1 && x.sent[0].fields["code"] == code
  {
  }
}
