// Game clips (lib/clips.ts): YouTube clips with tags and likes. The Firestore
// `clips` collection is a sequence of documents in the order its query returns
// them; server timestamps and generated ids are parameters.
module Clips {
  import opened Common
  import opened Text

  datatype ClipTag = Speedsoft | Milsim | Multikill | Funny | Tutorial | GearReview

  /** A stored clip document. `likedBy` may be missing on old documents; `date` is optional. */
  datatype ClipData = ClipData(
    userId: string,
    username: string,
    userAvatar: string,
    title: string,
    description: string,
    youtubeUrl: string,
    youtubeId: string,
    tags: seq<ClipTag>,
    likes: int,
    likedBy: Option<seq<string>>,
    comments: int,
    timestamp: int,
    date: Option<string>)

  /** A clip as the pages hold it: the document, its id, and whether the viewer likes it. */
  datatype Clip = Clip(id: string, data: ClipData, isLiked: Option<bool>)

  /** What addClip is given: a clip without its counters and timestamp. */
  datatype NewClip = NewClip(
    userId: string,
    username: string,
    userAvatar: string,
    title: string,
    description: string,
    youtubeUrl: string,
    youtubeId: string,
    tags: seq<ClipTag>,
    date: Option<string>)

  datatype ClipDoc = ClipDoc(id: string, data: ClipData)

  datatype LikeResult = LikeResult(liked: bool, newLikeCount: int)

  // ---------------------------------------------------------------------------
  // New clips

  /** The document addClip writes: the given fields, no likes, nobody in likedBy, no comments. */
  function Created(c: NewClip, now: int): (d: ClipData)
    ensures d.likes == 0 && d.likedBy == Some([]) && d.comments == 0 && d.timestamp == now
    ensures d.userId == c.userId && d.username == c.username && d.userAvatar == c.userAvatar
    ensures d.title == c.title && d.description == c.description && d.youtubeUrl == c.youtubeUrl
    ensures d.youtubeId == c.youtubeId && d.tags == c.tags && d.date == c.date
  {
    ClipData(c.userId, c.username, c.userAvatar, c.title, c.description, c.youtubeUrl, c.youtubeId,
             c.tags, 0, Some([]), 0, now, c.date)
  }

  // ---------------------------------------------------------------------------
  // Tags

  /** `tags.some(tag => clipTags.includes(tag))` */
  predicate SharesTag(clipTags: seq<ClipTag>, tags: seq<ClipTag>)
  {
    exists t :: t in tags && t in clipTags
  }

  /** getClips' test: with `tags` missing or empty every clip is kept, otherwise those sharing a tag. */
  predicate KeptByTags(clipTags: seq<ClipTag>, tags: Option<seq<ClipTag>>)
  {
    tags.None? || |tags.value| == 0 || SharesTag(clipTags, tags.value)
  }

  /** The clips getClips returns, in snapshot order. */
  function Listed(docs: seq<ClipDoc>, tags: Option<seq<ClipTag>>): seq<Clip>
  {
    FilterMap(docs, (d: ClipDoc) => KeptByTags(d.data.tags, tags), (d: ClipDoc) => Clip(d.id, d.data, None))
  }

  /** A listed clip is a document with a wanted tag, unliked; every such document is listed. */
  lemma ListedExactly(docs: seq<ClipDoc>, tags: Option<seq<ClipTag>>)
    ensures |Listed(docs, tags)| <= |docs|
    ensures forall d :: d in docs && KeptByTags(d.data.tags, tags) ==> Clip(d.id, d.data, None) in Listed(docs, tags)
    ensures forall c :: c in Listed(docs, tags) ==> c.isLiked.None? && ClipDoc(c.id, c.data) in docs && KeptByTags(c.data.tags, tags)
  {
    var r := Listed(docs, tags);
    forall c | c in r
      ensures c.isLiked.None? && ClipDoc(c.id, c.data) in docs && KeptByTags(c.data.tags, tags)
    {
      var d :| d in docs && KeptByTags(d.data.tags, tags) && c == Clip(d.id, d.data, None);
      assert ClipDoc(c.id, c.data) == d;
    }
  }

  /** Without a tag list, or with an empty one, every document is listed, in order. */
  lemma ListedAll(docs: seq<ClipDoc>, tags: Option<seq<ClipTag>>)
    requires tags.None? || |tags.value| == 0
    ensures |Listed(docs, tags)| == |docs|
    ensures forall i :: 0 <= i < |docs| ==> Listed(docs, tags)[i] == Clip(docs[i].id, docs[i].data, None)
  {
    FilterMapKeepsAll(docs, (d: ClipDoc) => KeptByTags(d.data.tags, tags), (d: ClipDoc) => Clip(d.id, d.data, None));
  }

  // ---------------------------------------------------------------------------
  // Likes

  /** `clipData.likedBy || []` */
  function LikedByList(data: ClipData): seq<string>
  {
    if data.likedBy.Some? then data.likedBy.value else []
  }

  /** The like toggle of one document: the new document and what toggleLike returns. */
  function Toggled(data: ClipData, userId: string): (r: (ClipData, LikeResult))
    ensures r.1.liked <==> userId !in LikedByList(data)
    ensures r.0.likedBy.Some? && (userId in r.0.likedBy.value <==> r.1.liked)
    ensures r.0.likedBy.value == if r.1.liked then LikedByList(data) + [userId] else Without(LikedByList(data), userId)
    ensures r.1.newLikeCount == r.0.likes == (if r.1.liked then data.likes + 1 else data.likes - 1)
    ensures r.0 == data.(likedBy := r.0.likedBy, likes := r.0.likes)
  {
    var likedBy := LikedByList(data);
    if userId in likedBy then
      var d := data.(likedBy := Some(Without(likedBy, userId)), likes := data.likes - 1);
      (d, LikeResult(false, data.likes - 1))
    else
      var d := data.(likedBy := Some(likedBy + [userId]), likes := data.likes + 1);
      (d, LikeResult(true, data.likes + 1))
  }

  /** Liking and then unliking restores the document exactly, when its likedBy list exists. */
  lemma ToggleTwiceRestores(data: ClipData, userId: string)
    requires data.likedBy.Some? && userId !in data.likedBy.value
    ensures Toggled(Toggled(data, userId).0, userId).0 == data
    ensures Toggled(Toggled(data, userId).0, userId).1 == LikeResult(false, data.likes)
  {
    var likedBy := data.likedBy.value;
    var d1 := Toggled(data, userId).0;
    assert d1.likedBy == Some(likedBy + [userId]) && d1.likes == data.likes + 1;
    WithoutConcat(likedBy, [userId], userId);
    WithoutAbsent(likedBy, userId);
    assert Without([userId], userId) == [];
    assert likedBy + [] == likedBy;
    var d2 := Toggled(d1, userId).0;
    assert d2.likedBy == Some(likedBy) && d2.likes == data.likes;
  }

  /** Unliking takes the user out of likedBy entirely, and leaves everyone else in. */
  lemma UnlikeRemovesEveryOccurrence(data: ClipData, userId: string, other: string)
    requires userId in LikedByList(data) && other != userId
    ensures userId !in LikedByList(Toggled(data, userId).0)
    ensures other in LikedByList(data) <==> other in LikedByList(Toggled(data, userId).0)
  {
    var likedBy := LikedByList(data);
    if other in likedBy {
      var i :| 0 <= i < |likedBy| && likedBy[i] == other;
      assert likedBy[i] != userId;
    }
  }

  /** markClipsAsLiked: every clip kept, isLiked set to whether the user is in its likedBy. */
  function MarkClipsAsLiked(clips: seq<Clip>, userId: string): (r: seq<Clip>)
    ensures |r| == |clips|
    ensures forall i :: 0 <= i < |clips| ==>
      r[i].id == clips[i].id && r[i].data == clips[i].data && r[i].isLiked.Some? &&
      (r[i].isLiked.value <==> clips[i].data.likedBy.Some? && userId in clips[i].data.likedBy.value)
  {
    seq(|clips|, i requires 0 <= i < |clips| =>
      clips[i].(isLiked := Some(clips[i].data.likedBy.Some? && userId in clips[i].data.likedBy.value)))
  }

  /** After a toggle, marking reports the toggle's own outcome. */
  lemma MarkAfterToggle(c: Clip, userId: string)
    ensures var t := Toggled(c.data, userId);
      MarkClipsAsLiked([c.(data := t.0)], userId)[0].isLiked == Some(t.1.liked)
  {
  }

  // ---------------------------------------------------------------------------
  // YouTube links

  /**
   * extractYouTubeId, given what the link pattern captures as its seventh group
   * (None when the URL does not match): the group if it is 11 characters long.
   */
  function ExtractYouTubeId(group7: Option<string>): (r: Option<string>)
    ensures r.Some? <==> group7.Some? && |group7.value| == 11
    ensures r.Some? ==> r.value == group7.value
  {
    if group7.Some? && |group7.value| == 11 then group7 else None
  }

  /** isValidYouTubeUrl */
  predicate IsValidYouTubeUrl(group7: Option<string>)
  {
    ExtractYouTubeId(group7) != None
  }

  lemma ValidIffElevenCharacters(group7: Option<string>)
    ensures IsValidYouTubeUrl(group7) <==> group7.Some? && |group7.value| == 11
  {
  }

  // ---------------------------------------------------------------------------
  // Relative time

  /**
   * formatTimeAgo, given the milliseconds elapsed since the clip's timestamp and
   * the locale date text used for clips older than a week.
   */
  function FormatTimeAgo(elapsedMs: int, localeDate: string): string
  {
    var seconds := elapsedMs / 1000;
    if seconds < 60 then IntToString(seconds) + "s ago"
    else if seconds < 3600 then IntToString(seconds / 60) + "m ago"
    else if seconds < 86400 then IntToString(seconds / 3600) + "h ago"
    else if seconds < 604800 then IntToString(seconds / 86400) + "d ago"
    else localeDate
  }

  /** Reads "<n><unit> ago" back into its number and unit letter. */
  function ReadTimeAgo(s: string): Option<(int, char)>
  {
    if |s| >= 6 && s[|s| - 4..] == " ago" then
      match ParseInt(s[..|s| - 5])
      case Some(n) => Some((n, s[|s| - 5]))
      case None => None
    else None
  }

  /** The size of one unit in seconds. */
  function UnitSeconds(unit: char): int
  {
    match unit
    case 's' => 1
    case 'm' => 60
    case 'h' => 3600
    case _ => 86400
  }

  /**
   * Within a week the text reads back as whole units elapsed: seconds under a
   * minute, then minutes, hours and days, each the floor of the elapsed time in
   * that unit and below the next unit; after a week it is the date text.
   */
  lemma TimeAgoReadsBack(elapsedMs: int, localeDate: string)
    ensures var seconds, r := elapsedMs / 1000, FormatTimeAgo(elapsedMs, localeDate);
      (seconds >= 604800 ==> r == localeDate) &&
      (seconds < 604800 ==>
        ReadTimeAgo(r).Some? &&
        var (n, unit) := ReadTimeAgo(r).value;
        n == seconds / UnitSeconds(unit) &&
        (unit == 's' <==> seconds < 60) &&
        (unit == 'm' ==> 1 <= n < 60) &&
        (unit == 'h' ==> 1 <= n < 24) &&
        (unit == 'd' ==> 1 <= n < 7) &&
        (unit == 's' || unit == 'm' || unit == 'h' || unit == 'd'))
  {
    var seconds := elapsedMs / 1000;
    if seconds < 604800 {
      var n, unit :=
        if seconds < 60 then seconds
        else if seconds < 3600 then seconds / 60
        else if seconds < 86400 then seconds / 3600
        else seconds / 86400,
        if seconds < 60 then 's' else if seconds < 3600 then 'm' else if seconds < 86400 then 'h' else 'd';
      var text := IntToString(n);
      var r := text + [unit] + " ago";
      assert FormatTimeAgo(elapsedMs, localeDate) == r;
      assert r[..|r| - 5] == text;
      assert r[|r| - 5] == unit;
      assert r[|r| - 4..] == " ago";
      IntToStringRoundTrip(n);
    }
  }

  // ---------------------------------------------------------------------------
  // The collection

  predicate DistinctIds(docs: seq<ClipDoc>)
  {
    forall i, j :: 0 <= i < j < |docs| ==> docs[i].id != docs[j].id
  }

  /** The position of the document with that id, if any. */
  function FindClip(docs: seq<ClipDoc>, id: string): (r: Option<nat>)
    ensures r.Some? ==> r.value < |docs| && docs[r.value].id == id
    ensures r.None? <==> forall d :: d in docs ==> d.id != id
  {
    if docs == [] then None
    else if docs[0].id == id then Some(0)
    else match FindClip(docs[1..], id)
      case Some(k) => Some(k + 1)
      case None => None
  }

  class ClipRepository {
    var docs: seq<ClipDoc>

    ghost predicate Valid()
      reads this
    {
      DistinctIds(docs)
    }

    constructor ()
      ensures docs == [] && Valid()
    {
      docs := [];
    }

    /** addClip: store the new document under a fresh id and return the id. */
    method AddClip(c: NewClip, freshId: string, now: int) returns (id: string)
      requires Valid()
      requires forall d :: d in docs ==> d.id != freshId
      modifies this
      ensures Valid()
      ensures id == freshId && docs == old(docs) + [ClipDoc(freshId, Created(c, now))]
    {
      docs := docs + [ClipDoc(freshId, Created(c, now))];
      id := freshId;
    }

    /** getClips: walk the snapshot, skipping clips without a wanted tag. */
    method GetClips(tags: Option<seq<ClipTag>>) returns (clips: seq<Clip>)
      ensures clips == Listed(docs, tags)
    {
      clips := [];
      var i := 0;
      while i < |docs|
        invariant 0 <= i <= |docs|
        invariant clips == Listed(docs[..i], tags)
      {
        var d := docs[i];
        assert docs[..i + 1][..i] == docs[..i];
        if tags.Some? && |tags.value| > 0 {
          var hasMatchingTag := exists t :: t in tags.value && t in d.data.tags;
          if !hasMatchingTag {
            i := i + 1;
            continue;
          }
        }
        clips := clips + [Clip(d.id, d.data, None)];
        i := i + 1;
      }
      assert docs[..i] == docs;
    }

    /**
     * toggleLike: "Clip not found" when no document has the id, and nothing changes;
     * otherwise that document's likedBy and likes are toggled for the user.
     */
    method ToggleLike(clipId: string, userId: string) returns (r: Result<LikeResult>)
      requires Valid()
      modifies this
      ensures Valid()
      ensures FindClip(old(docs), clipId).None? ==> r == Failure("Clip not found") && docs == old(docs)
      ensures FindClip(old(docs), clipId).Some? ==>
        var k := FindClip(old(docs), clipId).value;
        var t := Toggled(old(docs)[k].data, userId);
        r == Ok(t.1) && docs == old(docs)[k := ClipDoc(clipId, t.0)]
    {
      var found := FindClip(docs, clipId);
      if found.None? {
        return Failure("Clip not found");
      }
      var k := found.value;
      var t := Toggled(docs[k].data, userId);
      docs := docs[k := ClipDoc(clipId, t.0)];
      r := Ok(t.1);
    }
  }
}
