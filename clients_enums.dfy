/** logic/clients_enums.py: the platforms a client can be requested for, and
    the case-insensitive lookup `_missing_` that the enum falls back to when a
    value matches no member exactly. */
module ClientsEnums {
  import opened PyValues

  datatype ClientEnum = SPOTIFY | APPLE_MUSIC | YOUTUBE_MUSIC {
    function Name(): string {
      match this
      case SPOTIFY => "SPOTIFY"
      case APPLE_MUSIC => "APPLE_MUSIC"
      case YOUTUBE_MUSIC => "YOUTUBE_MUSIC"
    }

    /** The value each member is declared with. */
    function Value(): string {
      match this
      case SPOTIFY => "SPOTIFY"
      case APPLE_MUSIC => "APPLE_MUSIC"
      case YOUTUBE_MUSIC => "YOUTUBE_MUSIC"
    }
  }

  /** The members in declaration order, as `for member in cls` visits them. */
  const Members: seq<ClientEnum> := [SPOTIFY, APPLE_MUSIC, YOUTUBE_MUSIC]

  /** The first of `members` whose upper-cased name equals the upper-cased
      `value`. */
  function Search(members: seq<ClientEnum>, value: string): (r: Option<ClientEnum>)
    ensures r.Some? ==> r.value in members && Upper(r.value.Name()) == Upper(value)
    ensures r.None? ==> forall m :: m in members ==> Upper(m.Name()) != Upper(value)
  {
    if members == [] then None
    else if Upper(members[0].Name()) == Upper(value) then Some(members[0])
    else Search(members[1..], value)
  }

  /** `ClientEnum._missing_(value)`: nothing for a value that is not a str,
      otherwise the member whose name equals it ignoring case, if any. */
  function Missing(value: Json): (r: Option<ClientEnum>)
    ensures !value.JStr? ==> r.None?
    ensures r.Some? ==> Upper(r.value.Name()) == Upper(value.s)
  {
    match value
    case JStr(s) => Search(Members, s)
    case _ => None
  }

  /** `ClientEnum(value)`: the member with exactly that value, else whatever
      `_missing_` finds. */
  function FromValue(value: Json): (r: Option<ClientEnum>)
    ensures !value.JStr? ==> r.None?
    ensures r.Some? ==> Upper(r.value.Name()) == Upper(value.s)
  {
    if value == JStr("SPOTIFY") then Some(SPOTIFY)
    else if value == JStr("APPLE_MUSIC") then Some(APPLE_MUSIC)
    else if value == JStr("YOUTUBE_MUSIC") then Some(YOUTUBE_MUSIC)
    else Missing(value)
  }

  lemma UpperOfName(m: ClientEnum)
    ensures Upper(m.Name()) == m.Name()
  {
    var n := m.Name();
    forall i | 0 <= i < |n| ensures Upper(n)[i] == n[i] {
    }
  }

  /** Upper-casing keeps the member names apart. */
  lemma UpperNameInjective(a: ClientEnum, b: ClientEnum)
    requires Upper(a.Name()) == Upper(b.Name())
    ensures a == b
  {
    UpperOfName(a);
    UpperOfName(b);
  }

  /** The members are exactly SPOTIFY, APPLE_MUSIC and YOUTUBE_MUSIC, each
      with its name as value, and no two names agree after upper-casing. */
  lemma MembersAreExact()
    ensures forall m: ClientEnum :: m in Members && m.Value() == m.Name()
    ensures |Members| == 3
    ensures forall i, j :: 0 <= i < j < |Members| ==> Upper(Members[i].Name()) != Upper(Members[j].Name())
  {
    forall m: ClientEnum ensures m in Members && m.Value() == m.Name() {
      match m
      case SPOTIFY => assert Members[0] == m;
      case APPLE_MUSIC => assert Members[1] == m;
      case YOUTUBE_MUSIC => assert Members[2] == m;
    }
    forall i, j | 0 <= i < j < |Members| ensures Upper(Members[i].Name()) != Upper(Members[j].Name()) {
      if Upper(Members[i].Name()) == Upper(Members[j].Name()) {
        UpperNameInjective(Members[i], Members[j]);
      }
    }
  }

  /** A str equal to a member's name ignoring case resolves to that member,
      and to no other. */
  lemma MissingIgnoresCase(m: ClientEnum, s: string)
    requires Upper(s) == Upper(m.Name())
    ensures Missing(JStr(s)) == Some(m)
  {
    MembersAreExact();
    var r := Search(Members, s);
    assert r.Some?;
    UpperNameInjective(r.value, m);
  }

  /** A str matching no name ignoring case resolves to nothing. */
  lemma MissingRejectsUnknown(s: string)
    requires forall m: ClientEnum :: Upper(s) != Upper(m.Name())
    ensures Missing(JStr(s)).None?
  {
  }

  /** The exact-value path of the enum call agrees with `_missing_`, so the
      lookup as a whole is the case-insensitive search. */
  lemma {:induction false} FromValueIsCaseInsensitive(value: Json)
    ensures FromValue(value) == Missing(value)
  {
    if value == JStr("SPOTIFY") {
      UpperOfName(SPOTIFY);
      MissingIgnoresCase(SPOTIFY, "SPOTIFY");
    } else if value == JStr("APPLE_MUSIC") {
      UpperOfName(APPLE_MUSIC);
      MissingIgnoresCase(APPLE_MUSIC, "APPLE_MUSIC");
    } else if value == JStr("YOUTUBE_MUSIC") {
      UpperOfName(YOUTUBE_MUSIC);
      MissingIgnoresCase(YOUTUBE_MUSIC, "YOUTUBE_MUSIC");
    }
  }

  /** "spotify", "Spotify" and "SPOTIFY" all name the same member. */
  lemma SpotifyAnyCase()
    ensures FromValue(JStr("spotify")) == Some(SPOTIFY)
    ensures FromValue(JStr("Spotify")) == Some(SPOTIFY)
    ensures FromValue(JStr("SPOTIFY")) == Some(SPOTIFY)
  {
    UpperOfName(SPOTIFY);
    assert Upper("spotify") == "SPOTIFY";
    assert Upper("Spotify") == "SPOTIFY";
    MissingIgnoresCase(SPOTIFY, "spotify");
    MissingIgnoresCase(SPOTIFY, "Spotify");
  }
}
