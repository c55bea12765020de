/** The in-memory video registry of `src/routes/video.ts`: a list of video
    records with list (filter and page), get-by-id, upload (append) and
    partial update (overwrite one record in place). */
module Videos {
  import opened Wrappers
  import opened Http
  import Slug

  type Uuid = string

  const MIME_TYPE: string := "video/mp4"
  const MAX_TITLE: nat := 100
  const MAX_LIMIT: nat := 100
  const DEFAULT_LIMIT: nat := 10
  const DEFAULT_OFFSET: nat := 0
  const DURATION_BOUND: nat := 3600
  const FILE_SIZE_BOUND: nat := 100000000
  const VIDEO_URL_BASE: string := "https://example.com/videos/"
  const THUMBNAIL_URL_BASE: string := "https://example.com/thumbnails/"
  const UPLOAD_URL_BASE: string := "https://upload.example.com/"
  const UPLOAD_MESSAGE: string := "Video upload initiated successfully"
  const NOT_FOUND_ERROR: string := "Not Found"

  /** One stored record. `uploadedAt` is the clock reading at upload time. */
  datatype Video = Video(
    id: Uuid,
    title: string,
    filename: string,
    url: string,
    thumbnail: Option<string>,
    duration: Option<nat>,
    fileSize: nat,
    mimeType: string,
    uploadedAt: nat,
    userId: Uuid)

  /** The query string of the list route; an absent `limit` or `offset`
      takes its default. */
  datatype ListQuery = ListQuery(limit: Option<nat>, offset: Option<nat>, userId: Option<Uuid>)

  datatype ListPage = ListPage(videos: seq<Video>, total: nat, limit: nat, offset: nat)

  /** The body of the upload route. */
  datatype CreateVideo = CreateVideo(title: string, userId: Uuid)

  /** The body of the update route: the only field it can carry. */
  datatype VideoPatch = VideoPatch(title: Option<string>)

  /** Values the upload handler draws from the outside world: three fresh
      UUIDs, two random numbers already scaled and floored, and the clock. */
  datatype Generated = Generated(
    id: Uuid,
    urlId: Uuid,
    thumbnailId: Uuid,
    duration: nat,
    fileSize: nat,
    now: nat)

  datatype UploadReceipt = UploadReceipt(id: Uuid, message: string, uploadUrl: string)

  predicate ValidTitle(t: string) {
    1 <= |t| <= MAX_TITLE
  }

  /** What the query schema admits: `limit` within 1..100 when given. */
  predicate ValidQuery(q: ListQuery) {
    q.limit.Some? ==> 1 <= q.limit.value <= MAX_LIMIT
  }

  predicate ValidPatch(p: VideoPatch) {
    p.title.Some? ==> ValidTitle(p.title.value)
  }

  /** The ranges of `floor(random() * 3600)` and `floor(random() * 1e8)`. */
  predicate InRange(g: Generated) {
    g.duration < DURATION_BOUND && g.fileSize < FILE_SIZE_BOUND
  }

  /** What every record in the registry satisfies: a schema-valid title, the
      fixed mime type, a whitespace-free `.mp4` filename and generated
      numbers within their ranges. */
  predicate WellFormed(v: Video) {
    && ValidTitle(v.title)
    && v.mimeType == MIME_TYPE
    && Slug.NoSpace(v.filename)
    && |v.filename| >= 4 && v.filename[|v.filename| - 4..] == ".mp4"
    && v.thumbnail.Some?
    && v.duration.Some? && v.duration.value < DURATION_BOUND
    && v.fileSize < FILE_SIZE_BOUND
  }

  function Min(a: int, b: int): int {
    if a < b then a else b
  }

  function Max(a: int, b: int): int {
    if a < b then b else a
  }

  /** The ids of the stored records, in order. */
  function Ids(vs: seq<Video>): (r: seq<Uuid>)
    ensures |r| == |vs|
  {
    seq(|vs|, i requires 0 <= i < |vs| => vs[i].id)
  }

  // ---------------------------------------------------------------------
  // list

  /** `vs.filter(v => v.userId === userId)`. */
  function Filter(vs: seq<Video>, userId: Uuid): (r: seq<Video>)
    ensures |r| <= |vs|
    ensures forall v :: v in r <==> v in vs && v.userId == userId
  {
    if vs == [] then []
    else if vs[0].userId == userId then [vs[0]] + Filter(vs[1..], userId)
    else Filter(vs[1..], userId)
  }

  /** A `userId` that JavaScript's `if (userId)` treats as true: present and
      not the empty string. */
  predicate Truthy(userId: Option<Uuid>) {
    userId.Some? && userId.value != ""
  }

  /** The sequence the list route pages through: only the records of the
      requested user when the `userId` is truthy, otherwise everything. */
  function Selected(vs: seq<Video>, userId: Option<Uuid>): (r: seq<Video>)
    ensures Truthy(userId) ==> forall v :: v in r <==> v in vs && v.userId == userId.value
    ensures !Truthy(userId) ==> r == vs
  {
    if Truthy(userId) then Filter(vs, userId.value) else vs
  }

  /** `s.slice(start, end)` for non-negative bounds: the elements from
      `start` up to but excluding `end`, both cut down to `|s|`; empty when
      `start` is not below both. */
  function Slice<T>(s: seq<T>, start: nat, end: nat): (r: seq<T>)
    ensures |r| == Max(Min(end, |s|) - start, 0)
    ensures forall i :: 0 <= i < |r| ==> start + i < |s| && r[i] == s[start + i]
  {
    var b, e := Min(start, |s|), Min(end, |s|);
    if b < e then s[b..e] else []
  }

  // ---------------------------------------------------------------------
  // get by id and the index scan of update

  /** `i` is the first position holding a record with this id. */
  predicate FirstMatch(vs: seq<Video>, id: Uuid, i: nat) {
    i < |vs| && vs[i].id == id && forall j :: 0 <= j < i ==> vs[j].id != id
  }

  predicate HasId(vs: seq<Video>, id: Uuid) {
    exists i :: 0 <= i < |vs| && vs[i].id == id
  }

  /** `vs.findIndex(v => v.id === id)`, with `None` for JavaScript's -1. */
  function FindIndex(vs: seq<Video>, id: Uuid): (r: Option<nat>)
    ensures r.Some? <==> HasId(vs, id)
    ensures r.Some? ==> FirstMatch(vs, id, r.value)
  {
    if vs == [] then None
    else if vs[0].id == id then Some(0)
    else match FindIndex(vs[1..], id)
      case None => None
      case Some(i) => Some(i + 1)
  }

  /** `vs.find(v => v.id === id)`. */
  function Find(vs: seq<Video>, id: Uuid): (r: Option<Video>)
    ensures r.Some? <==> HasId(vs, id)
    ensures r.Some? ==> exists i: nat :: FirstMatch(vs, id, i) && r.value == vs[i]
  {
    match FindIndex(vs, id)
    case None => None
    case Some(i) => Some(vs[i])
  }

  /** The 404 reply of get-by-id and update. */
  function NotFound<T>(id: Uuid): (r: Response<T>)
    ensures r.Failure? && r.status == STATUS_NOT_FOUND && r.body.error == NOT_FOUND_ERROR
    ensures |r.body.message| == |id| + 28 && r.body.message[14..14 + |id|] == id
  {
    Failure(STATUS_NOT_FOUND, ErrorBody(NOT_FOUND_ERROR, "Video with id " + id + " was not found"))
  }

  // ---------------------------------------------------------------------
  // upload and update

  /** The record an upload creates. */
  function NewVideo(req: CreateVideo, g: Generated): (v: Video)
    ensures v.id == g.id && v.title == req.title && v.userId == req.userId
    ensures v.mimeType == MIME_TYPE && v.uploadedAt == g.now
    ensures v.filename == Slug.Filename(req.title) && Slug.NoSpace(v.filename)
    ensures v.url == VIDEO_URL_BASE + g.urlId + ".mp4"
    ensures v.thumbnail == Some(THUMBNAIL_URL_BASE + g.thumbnailId + ".jpg")
    ensures v.duration == Some(g.duration) && v.fileSize == g.fileSize
    ensures ValidTitle(req.title) && InRange(g) ==> WellFormed(v)
  {
    Video(
      id := g.id,
      title := req.title,
      filename := Slug.Filename(req.title),
      url := VIDEO_URL_BASE + g.urlId + ".mp4",
      thumbnail := Some(THUMBNAIL_URL_BASE + g.thumbnailId + ".jpg"),
      duration := Some(g.duration),
      fileSize := g.fileSize,
      mimeType := MIME_TYPE,
      uploadedAt := g.now,
      userId := req.userId)
  }

  /** `{...v, ...p}`: the provided title replaces the stored one; every
      other field, the filename included, is kept. */
  function Merge(v: Video, p: VideoPatch): (r: Video)
    ensures r.(title := v.title) == v
    ensures r.title == if p.title.Some? then p.title.value else v.title
    ensures WellFormed(v) && ValidPatch(p) ==> WellFormed(r)
  {
    match p.title
    case Some(t) => v.(title := t)
    case None => v
  }

  // ---------------------------------------------------------------------
  // the registry

  class VideoStore {
    /** `videosList`, in insertion order. */
    var videos: seq<Video>

    ghost predicate Valid()
      reads this
    {
      forall i :: 0 <= i < |videos| ==> WellFormed(videos[i])
    }

    constructor ()
      ensures Valid() && videos == []
    {
      videos := [];
    }

    /** GET /: filter by user when asked, then one page of the result. */
    method List(q: ListQuery) returns (r: ListPage)
      requires ValidQuery(q)
      ensures r.limit == q.limit.GetOr(DEFAULT_LIMIT) && r.offset == q.offset.GetOr(DEFAULT_OFFSET)
      ensures r.total == |Selected(videos, q.userId)|
      ensures !Truthy(q.userId) ==> r.total == |videos|
      ensures |r.videos| == Min(r.limit, Max(r.total - r.offset, 0))
      ensures forall i :: 0 <= i < |r.videos| ==>
        r.offset + i < r.total && r.videos[i] == Selected(videos, q.userId)[r.offset + i]
      ensures Truthy(q.userId) ==> forall v :: v in r.videos ==> v in videos && v.userId == q.userId.value
    {
      var limit := q.limit.GetOr(DEFAULT_LIMIT);
      var offset := q.offset.GetOr(DEFAULT_OFFSET);
      var filtered := videos;
      if Truthy(q.userId) {
        filtered := Filter(videos, q.userId.value);
      }
      var page := Slice(filtered, offset, offset + limit);
      r := ListPage(page, |filtered|, limit, offset);
    }

    /** GET /:id: the first record with this id, or 404. */
    method Get(id: Uuid) returns (r: Response<Video>)
      ensures r.Ok? <==> HasId(videos, id)
      ensures r.Ok? ==> r.status == STATUS_OK && exists i: nat :: FirstMatch(videos, id, i) && r.value == videos[i]
      ensures r.Failure? ==> r == NotFound(id)
    {
      var found := Find(videos, id);
      if found.None? {
        r := NotFound(id);
      } else {
        r := Ok(STATUS_OK, found.value);
      }
    }

    /** POST /upload: append one new record and reply 201. */
    method Upload(req: CreateVideo, g: Generated) returns (r: Response<UploadReceipt>)
      requires Valid() && ValidTitle(req.title) && InRange(g)
      modifies this
      ensures Valid()
      ensures videos == old(videos) + [NewVideo(req, g)]
      ensures r == Ok(STATUS_CREATED, UploadReceipt(g.id, UPLOAD_MESSAGE, UPLOAD_URL_BASE + g.id))
      ensures !HasId(old(videos), g.id) ==> Find(videos, g.id) == Some(NewVideo(req, g))
    {
      var v := NewVideo(req, g);
      if !HasId(videos, g.id) {
        FindAppended(videos, v);
      }
      videos := videos + [v];
      r := Ok(STATUS_CREATED, UploadReceipt(v.id, UPLOAD_MESSAGE, UPLOAD_URL_BASE + v.id));
    }

    /** PATCH /:id: merge the patch into the first record with this id, or
        404 with the store untouched. */
    method Update(id: Uuid, p: VideoPatch) returns (r: Response<Video>)
      requires Valid() && ValidPatch(p)
      modifies this
      ensures Valid()
      ensures Ids(videos) == Ids(old(videos))
      ensures !HasId(old(videos), id) ==> r == NotFound(id) && videos == old(videos)
      ensures HasId(old(videos), id) ==>
        (exists i: nat :: FirstMatch(old(videos), id, i)
           && videos == old(videos)[i := Merge(old(videos)[i], p)]
           && r == Ok(STATUS_OK, videos[i]))
      ensures r.Ok? ==> Find(videos, id) == Some(r.value)
    {
      var index := FindIndex(videos, id);
      if index.None? {
        r := NotFound(id);
        return;
      }
      var i := index.value;
      var merged := Merge(videos[i], p);
      FindAfterMerge(videos, id, i, p);
      videos := videos[i := merged];
      r := Ok(STATUS_OK, videos[i]);
    }
  }

  // ---------------------------------------------------------------------
  // lemmas

  /** Filtering distributes over concatenation, so it keeps the relative
      insertion order of the records it retains. */
  lemma {:induction false} FilterAppend(a: seq<Video>, b: seq<Video>, userId: Uuid)
    ensures Filter(a + b, userId) == Filter(a, userId) + Filter(b, userId)
  {
    if a == [] {
      assert a + b == b;
    } else {
      assert (a + b)[0] == a[0];
      assert (a + b)[1..] == a[1..] + b;
      FilterAppend(a[1..], b, userId);
    }
  }

  /** The filtered sequence holds every record of that user exactly as
      often as the store does and no other record, so `total` counts the
      user's records. */
  lemma {:induction false} FilterCounts(vs: seq<Video>, userId: Uuid, v: Video)
    ensures multiset(Filter(vs, userId))[v] == if v.userId == userId then multiset(vs)[v] else 0
  {
    if vs != [] {
      assert vs == [vs[0]] + vs[1..];
      FilterCounts(vs[1..], userId, v);
    }
  }

  /** Page size: `min(limit, max(total - offset, 0))`; in particular an
      offset at or past the end gives an empty page. */
  lemma PageLength<T>(s: seq<T>, offset: nat, limit: nat)
    ensures |Slice(s, offset, offset + limit)| == Min(limit, Max(|s| - offset, 0))
    ensures offset >= |s| ==> Slice(s, offset, offset + limit) == []
  {
  }

  /** Consecutive pages tile the sequence: the page at `offset` of size
      `m` followed by the page right after it of size `n` is the page at
      `offset` of size `m + n`. */
  lemma PagesTile<T>(s: seq<T>, offset: nat, m: nat, n: nat)
    ensures Slice(s, offset, offset + m) + Slice(s, offset + m, offset + m + n)
         == Slice(s, offset, offset + m + n)
  {
  }

  /** The search result depends on the ids alone. */
  lemma {:induction false} FindIndexByIds(a: seq<Video>, b: seq<Video>, id: Uuid)
    requires Ids(a) == Ids(b)
    ensures FindIndex(a, id) == FindIndex(b, id)
  {
    assert forall i :: 0 <= i < |a| ==> a[i].id == Ids(a)[i] == Ids(b)[i] == b[i].id;
    if a != [] {
      assert Ids(a[1..]) == Ids(a)[1..] && Ids(b[1..]) == Ids(b)[1..];
      FindIndexByIds(a[1..], b[1..], id);
    }
  }

  /** A record appended under an id not yet stored is what a lookup of
      that id finds. */
  lemma FindAppended(vs: seq<Video>, v: Video)
    requires !HasId(vs, v.id)
    ensures FindIndex(vs + [v], v.id) == Some(|vs|)
    ensures Find(vs + [v], v.id) == Some(v)
  {
    var ws := vs + [v];
    assert ws[|vs|].id == v.id;
    assert HasId(ws, v.id);
    forall j | 0 <= j < |vs| ensures ws[j].id != v.id {
      assert ws[j] == vs[j];
    }
  }

  /** After the merge at the first match, a lookup of the same id finds
      the merged record; the ids, and so every lookup, are unchanged. */
  lemma FindAfterMerge(vs: seq<Video>, id: Uuid, i: nat, p: VideoPatch)
    requires FirstMatch(vs, id, i)
    ensures Ids(vs[i := Merge(vs[i], p)]) == Ids(vs)
    ensures forall other :: FindIndex(vs[i := Merge(vs[i], p)], other) == FindIndex(vs, other)
    ensures Find(vs[i := Merge(vs[i], p)], id) == Some(Merge(vs[i], p))
  {
    var ws := vs[i := Merge(vs[i], p)];
    assert Ids(ws) == Ids(vs);
    forall other ensures FindIndex(ws, other) == FindIndex(vs, other) {
      FindIndexByIds(ws, vs, other);
    }
    assert FindIndex(vs, id) == Some(i);
  }

  /** Merging the same patch twice is merging it once. */
  lemma MergeIdempotent(v: Video, p: VideoPatch)
    ensures Merge(Merge(v, p), p) == Merge(v, p)
  {
  }
}
