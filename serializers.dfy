/** serializers.py: the nested Image / Song / Playlist schema. Each record is
    a datatype; validation of incoming JSON against the declared fields is a
    partial function to the record, and the record's own validity predicate
    says what the field declarations demand. */
module Serializers {
  import opened PyValues

  /** `max_length` of every CharField in the schema. */
  const MaxLength := 200

  datatype Image = Image(url: string, height: int, width: int)
  datatype Song = Song(title: string, artists: seq<string>, images: seq<Image>)
  datatype Playlist = Playlist(title: string, songs: seq<Song>, images: seq<Image>)

  // ---------------------------------------------------------------- validity

  /** A `CharField(max_length=200)` value. */
  predicate ValidChars(s: string) {
    |s| <= MaxLength
  }

  /** ImageSerializer: a url of at most 200 characters; height and width are
      any integers. */
  predicate ValidImage(i: Image) {
    ValidChars(i.url)
  }

  predicate ValidImages(images: seq<Image>) {
    forall k :: 0 <= k < |images| ==> ValidImage(images[k])
  }

  /** SongSerializer: a short title, short artist names, valid images. */
  predicate ValidSong(s: Song) {
    && ValidChars(s.title)
    && (forall k :: 0 <= k < |s.artists| ==> ValidChars(s.artists[k]))
    && ValidImages(s.images)
  }

  /** PlaylistSerializer: a short title, valid songs, valid images. */
  predicate ValidPlaylist(p: Playlist) {
    && ValidChars(p.title)
    && (forall k :: 0 <= k < |p.songs| ==> ValidSong(p.songs[k]))
    && ValidImages(p.images)
  }

  // ---------------------------------------------------------------- fields

  /** A required `CharField(max_length=200)`: present, a str, short enough. */
  function CharField(field: Option<Json>): (r: Option<string>)
    ensures r.Some? <==> field.Some? && field.value.JStr? && ValidChars(field.value.s)
    ensures r.Some? ==> r.value == field.value.s
  {
    match field
    case Some(JStr(s)) => if |s| <= MaxLength then Some(s) else None
    case _ => None
  }

  /** An `IntegerField(default=0)`: 0 when absent, else it must be an int. */
  function IntegerField(field: Option<Json>): (r: Option<int>)
    ensures field.None? ==> r == Some(0)
    ensures field.Some? ==> (r.Some? <==> field.value.JInt?)
    ensures field.Some? && r.Some? ==> r.value == field.value.i
  {
    match field
    case None => Some(0)
    case Some(JInt(i)) => Some(i)
    case _ => None
  }

  /** `many=True` / `ListField(child=...)`: a list each of whose elements the
      child accepts, giving the children's results in order. */
  function ListOf<T>(items: seq<Json>, child: Json -> Option<T>): (r: Option<seq<T>>)
    ensures r.Some? <==> forall k :: 0 <= k < |items| ==> child(items[k]).Some?
    ensures r.Some? ==> |r.value| == |items| &&
                        forall k :: 0 <= k < |items| ==> child(items[k]) == Some(r.value[k])
  {
    if items == [] then Some([])
    else
      match (child(items[0]), ListOf(items[1..], child))
      case (Some(x), Some(xs)) =>
        assert forall k :: 1 <= k < |items| ==> items[k] == items[1..][k - 1];
        Some([x] + xs)
      case (_, None) =>
        assert exists k :: 0 <= k < |items[1..]| && child(items[1..][k]).None?;
        None
      case (None, _) => None
  }

  /** The list a list field's value holds, if it is a list. */
  function Items(field: Option<Json>): Option<seq<Json>> {
    match field
    case Some(JArr(xs)) => Some(xs)
    case _ => None
  }

  function Member(j: Json, key: string): Option<Json> {
    if j.JObj? then Lookup(j.pairs, key) else None
  }

  // ---------------------------------------------------------------- records

  /** `ImageSerializer(data=j)`: the validated Image, or None when invalid. */
  function ImageFrom(j: Json): (r: Option<Image>)
    ensures r.Some? ==> ValidImage(r.value)
  {
    match (CharField(Member(j, "url")), IntegerField(Member(j, "height")), IntegerField(Member(j, "width")))
    case (Some(url), Some(h), Some(w)) => Some(Image(url, h, w))
    case _ => None
  }

  function ImagesFrom(field: Option<Json>): (r: Option<seq<Image>>)
    ensures r.Some? ==> ValidImages(r.value)
  {
    match Items(field)
    case None => None
    case Some(xs) => ListOf(xs, ImageFrom)
  }

  function ArtistFrom(j: Json): (r: Option<string>)
    ensures r.Some? ==> ValidChars(r.value)
  {
    CharField(Some(j))
  }

  /** `SongSerializer(data=j)`. */
  function SongFrom(j: Json): (r: Option<Song>)
    ensures r.Some? ==> ValidSong(r.value)
  {
    match (CharField(Member(j, "title")), Items(Member(j, "artists")), ImagesFrom(Member(j, "images")))
    case (Some(title), Some(xs), Some(images)) =>
      (match ListOf(xs, ArtistFrom)
       case Some(artists) => Some(Song(title, artists, images))
       case None => None)
    case _ => None
  }

  /** `PlaylistSerializer(data=j)`. */
  function PlaylistFrom(j: Json): (r: Option<Playlist>)
    ensures r.Some? ==> ValidPlaylist(r.value)
  {
    match (CharField(Member(j, "title")), Items(Member(j, "songs")), ImagesFrom(Member(j, "images")))
    case (Some(title), Some(xs), Some(images)) =>
      (match ListOf(xs, SongFrom)
       case Some(songs) => Some(Playlist(title, songs, images))
       case None => None)
    case _ => None
  }

  // ---------------------------------------------------------------- output

  function ImageJson(i: Image): Json {
    JObj([("url", JStr(i.url)), ("height", JInt(i.height)), ("width", JInt(i.width))])
  }

  function ImagesJson(images: seq<Image>): Json {
    JArr(seq(|images|, k requires 0 <= k < |images| => ImageJson(images[k])))
  }

  function SongJson(s: Song): Json {
    JObj([("title", JStr(s.title)),
          ("artists", JArr(seq(|s.artists|, k requires 0 <= k < |s.artists| => JStr(s.artists[k])))),
          ("images", ImagesJson(s.images))])
  }

  /** `PlaylistSerializer(p).data`: the fields in declaration order. */
  function PlaylistJson(p: Playlist): Json {
    JObj([("title", JStr(p.title)),
          ("songs", JArr(seq(|p.songs|, k requires 0 <= k < |p.songs| => SongJson(p.songs[k])))),
          ("images", ImagesJson(p.images))])
  }

  // ---------------------------------------------------------------- properties

  /** A url longer than 200 characters is rejected whatever else is there. */
  lemma LongUrlRejected(j: Json)
    requires j.JObj? && Lookup(j.pairs, "url").Some? && Lookup(j.pairs, "url").value.JStr?
    requires |Lookup(j.pairs, "url").value.s| > MaxLength
    ensures ImageFrom(j).None?
  {
  }

  /** An image given only its url gets height and width 0. */
  lemma ImageDefaults(url: string)
    requires ValidChars(url)
    ensures ImageFrom(JObj([("url", JStr(url))])) == Some(Image(url, 0, 0))
  {
    var ps := [("url", JStr(url))];
    assert !HasKey(ps, "height") && !HasKey(ps, "width");
  }

  /** A list validates exactly when every element does: one bad element
      rejects the whole list. */
  lemma ListRejectsBadElement<T>(items: seq<Json>, child: Json -> Option<T>, k: int)
    requires 0 <= k < |items| && child(items[k]).None?
    ensures ListOf(items, child).None?
  {
  }

  /** A list whose elements the child maps to `xs` validates to `xs`. */
  lemma ListOfAll<T>(items: seq<Json>, xs: seq<T>, child: Json -> Option<T>)
    requires |items| == |xs|
    requires forall k :: 0 <= k < |items| ==> child(items[k]) == Some(xs[k])
    ensures ListOf(items, child) == Some(xs)
  {
    var r := ListOf(items, child);
    assert r.Some?;
    assert r.value == xs;
  }

  lemma ImageRoundTrip(i: Image)
    requires ValidImage(i)
    ensures ImageFrom(ImageJson(i)) == Some(i)
  {
    var ps := ImageJson(i).pairs;
    LookupAt(ps, "url", 0);
    LookupAt(ps, "height", 1);
    LookupAt(ps, "width", 2);
  }

  lemma ImagesRoundTrip(images: seq<Image>)
    requires ValidImages(images)
    ensures ImagesFrom(Some(ImagesJson(images))) == Some(images)
  {
    var items := ImagesJson(images).items;
    forall k | 0 <= k < |items| ensures ImageFrom(items[k]) == Some(images[k]) {
      ImageRoundTrip(images[k]);
    }
    ListOfAll(items, images, ImageFrom);
  }

  lemma SongRoundTrip(s: Song)
    requires ValidSong(s)
    ensures SongFrom(SongJson(s)) == Some(s)
  {
    var ps := SongJson(s).pairs;
    LookupAt(ps, "title", 0);
    LookupAt(ps, "artists", 1);
    LookupAt(ps, "images", 2);
    ImagesRoundTrip(s.images);
    var items := ps[1].1.items;
    forall k | 0 <= k < |items| ensures ArtistFrom(items[k]) == Some(s.artists[k]) {
    }
    ListOfAll(items, s.artists, ArtistFrom);
  }

  /** Validating a valid playlist's rendering gives the same playlist back,
      songs and images in order. */
  lemma PlaylistRoundTrip(p: Playlist)
    requires ValidPlaylist(p)
    ensures PlaylistFrom(PlaylistJson(p)) == Some(p)
  {
    var ps := PlaylistJson(p).pairs;
    LookupAt(ps, "title", 0);
    LookupAt(ps, "songs", 1);
    LookupAt(ps, "images", 2);
    ImagesRoundTrip(p.images);
    var items := ps[1].1.items;
    forall k | 0 <= k < |items| ensures SongFrom(items[k]) == Some(p.songs[k]) {
      SongRoundTrip(p.songs[k]);
    }
    ListOfAll(items, p.songs, SongFrom);
  }

  /** A playlist is accepted exactly when a valid playlist renders to it:
      validation accepts nothing that is not a valid playlist, and every
      valid playlist can be sent. */
  lemma PlaylistAcceptedIffValid(p: Playlist)
    ensures ValidPlaylist(p) <==> PlaylistFrom(PlaylistJson(p)) == Some(p)
  {
    if ValidPlaylist(p) {
      PlaylistRoundTrip(p);
    }
  }
}
