// The clips feed page (app/clips/page.tsx): the loaded clips, the date and
// tag filters with a sort order, the like button with its optimistic update,
// and the upload form with its checks. Browser alerts are recorded as the
// last alert shown.
module ClipsPage {
  import opened Common
  import opened Text
  import opened Clips

  datatype SortOrder = Newest | Popular

  /** The alerts the page raises, by the message they show. */
  datatype Alert = SignInToLike | SignInToUpload | InvalidYouTubeUrl | TitleRequired | UploadFailed

  function Message(a: Alert): string
  {
    match a
    case SignInToLike => "Please sign in to like clips"
    case SignInToUpload => "Please sign in to upload clips"
    case InvalidYouTubeUrl => "Please enter a valid YouTube URL"
    case TitleRequired => "Please enter a title"
    case UploadFailed => "Failed to upload clip. Please try again."
  }

  datatype UploadForm = UploadForm(title: string, description: string, youtubeUrl: string, tags: seq<ClipTag>, date: string)

  const EmptyForm := UploadForm("", "", "", [], "")

  // ---------------------------------------------------------------------------
  // Filtering and sorting

  /** `if (dateFilter)`: a date is in the address and it is not "". */
  predicate DateApplies(dateFilter: Option<string>)
  {
    dateFilter.Some? && dateFilter.value != ""
  }

  /** The filter effect's test for one clip: its date when a date is given, a shared tag when tags are selected. */
  predicate Shown(c: Clip, dateFilter: Option<string>, selectedTags: seq<ClipTag>)
  {
    (DateApplies(dateFilter) ==> c.data.date == Some(dateFilter.value)) &&
    (|selectedTags| > 0 ==> SharesTag(c.data.tags, selectedTags))
  }

  /** The clips the filter effect keeps, before sorting, in their loaded order. */
  function Selected(clips: seq<Clip>, dateFilter: Option<string>, selectedTags: seq<ClipTag>): seq<Clip>
  {
    FilterMap(clips, (c: Clip) => Shown(c, dateFilter, selectedTags), (c: Clip) => c)
  }

  /** A clip is selected exactly when it is loaded and passes both filters. */
  lemma SelectedExactly(clips: seq<Clip>, dateFilter: Option<string>, selectedTags: seq<ClipTag>, c: Clip)
    ensures c in Selected(clips, dateFilter, selectedTags) <==> c in clips && Shown(c, dateFilter, selectedTags)
  {
    var r := Selected(clips, dateFilter, selectedTags);
    if c in r {
      var d :| d in clips && Shown(d, dateFilter, selectedTags) && c == d;
    }
  }

  /** With no date in the address and no tag selected, every loaded clip is shown. */
  lemma NoFilterKeepsAll(clips: seq<Clip>, dateFilter: Option<string>)
    requires !DateApplies(dateFilter)
    ensures Selected(clips, dateFilter, []) == clips
  {
    FilterMapKeepsAll(clips, (c: Clip) => Shown(c, dateFilter, []), (c: Clip) => c);
  }

  /** The number a sort order compares: the timestamp for "newest", the like count for "popular". */
  function SortKey(order: SortOrder): Clip -> int
  {
    match order
    case Newest => (c: Clip) => c.data.timestamp
    case Popular => (c: Clip) => c.data.likes
  }

  predicate SortedDescending<T>(xs: seq<T>, key: T -> int)
  {
    forall p, q :: 0 <= p < q < |xs| ==> key(xs[p]) >= key(xs[q])
  }

  method Swap<T>(a: array<T>, i: int, j: int)
    requires 0 <= i < j < a.Length
    modifies a
    ensures a[i] == old(a[j]) && a[j] == old(a[i])
    ensures forall m :: 0 <= m < a.Length && m != i && m != j ==> a[m] == old(a[m])
    ensures multiset(a[..]) == old(multiset(a[..]))
  {
    a[i], a[j] := a[j], a[i];
  }

  /** `a.sort((x, y) => key(y) - key(x))`: in place, largest key first. */
  method SortByKeyDescending<T>(a: array<T>, key: T -> int)
    modifies a
    ensures SortedDescending(a[..], key)
    ensures multiset(a[..]) == old(multiset(a[..]))
  {
    for i := 0 to a.Length
      invariant SortedDescending(a[..i], key)
      invariant multiset(a[..]) == old(multiset(a[..]))
    {
      var j := i;
      while j > 0 && key(a[j - 1]) < key(a[j])
        invariant 0 <= j <= i
        invariant forall p, q :: 0 <= p < q <= i && p != j && q != j ==> key(a[p]) >= key(a[q])
        invariant forall q :: j < q <= i ==> key(a[j]) > key(a[q])
        invariant multiset(a[..]) == old(multiset(a[..]))
      {
        Swap(a, j - 1, j);
        j := j - 1;
      }
    }
  }

  // ---------------------------------------------------------------------------
  // Tag selection

  /** `prev.includes(tag) ? prev.filter(t => t !== tag) : [...prev, tag]` */
  function ToggledTags(tags: seq<ClipTag>, tag: ClipTag): (r: seq<ClipTag>)
    ensures tag in r <==> tag !in tags
    ensures forall t :: t != tag ==> (t in r <==> t in tags)
  {
    if tag in tags then Without(tags, tag) else tags + [tag]
  }

  /** Toggling a tag that is not selected, and then toggling it again, gives back the same selection. */
  lemma ToggleTagTwiceRestores(tags: seq<ClipTag>, tag: ClipTag)
    requires tag !in tags
    ensures ToggledTags(ToggledTags(tags, tag), tag) == tags
  {
    WithoutConcat(tags, [tag], tag);
    WithoutAbsent(tags, tag);
    assert Without([tag], tag) == [];
    assert tags + [] == tags;
  }

  /** A selection built by toggles never lists a tag twice. */
  lemma ToggleKeepsNoDuplicates(tags: seq<ClipTag>, tag: ClipTag)
    requires NoDuplicates(tags)
    ensures NoDuplicates(ToggledTags(tags, tag))
  {
    if tag in tags {
      WithoutKeepsNoDuplicates(tags, tag);
    }
  }

  lemma {:induction false} WithoutKeepsNoDuplicates(tags: seq<ClipTag>, tag: ClipTag)
    requires NoDuplicates(tags)
    ensures NoDuplicates(Without(tags, tag))
  {
    if tags != [] {
      WithoutKeepsNoDuplicates(tags[1..], tag);
      if tags[0] != tag {
        assert tags[0] !in tags[1..];
        assert tags[0] !in Without(tags[1..], tag);
      }
    }
  }

  // ---------------------------------------------------------------------------
  // The optimistic like

  /** The clip as the like button shows it at once: likes up when it was not liked, down when it was, and isLiked flipped. */
  function Flipped(c: Clip): (r: Clip)
    ensures r.id == c.id && r.isLiked == Some(!(c.isLiked == Some(true)))
    ensures r.data == c.data.(likes := if c.isLiked == Some(true) then c.data.likes - 1 else c.data.likes + 1)
  {
    var liked := c.isLiked == Some(true);
    c.(data := c.data.(likes := if liked then c.data.likes - 1 else c.data.likes + 1), isLiked := Some(!liked))
  }

  /** The optimistic update: the clip with that id is flipped, every other clip is left as it is. */
  function Optimistic(clips: seq<Clip>, clipId: string): (r: seq<Clip>)
    ensures |r| == |clips|
    ensures forall i :: 0 <= i < |clips| ==> r[i] == if clips[i].id == clipId then Flipped(clips[i]) else clips[i]
  {
    seq(|clips|, i requires 0 <= i < |clips| => if clips[i].id == clipId then Flipped(clips[i]) else clips[i])
  }

  /** Two clicks on a clip whose like state is known give back the same clips. */
  lemma OptimisticTwiceRestores(clips: seq<Clip>, clipId: string)
    requires forall i :: 0 <= i < |clips| && clips[i].id == clipId ==> clips[i].isLiked.Some?
    ensures Optimistic(Optimistic(clips, clipId), clipId) == clips
  {
    var r := Optimistic(Optimistic(clips, clipId), clipId);
    forall i | 0 <= i < |clips|
      ensures r[i] == clips[i]
    {
      var c := clips[i];
      if c.id == clipId {
        var once := Flipped(c);
        assert Optimistic(clips, clipId)[i] == once;
        var twice := Flipped(once);
        assert r[i] == twice;
        assert twice.data.likes == c.data.likes;
        assert twice.data == c.data;
        if c.isLiked == Some(true) {
          assert once.isLiked == Some(false);
        } else {
          assert c.isLiked.Some?;
          assert c.isLiked.value == false;
          assert once.isLiked == Some(true);
        }
      }
    }
  }

  // ---------------------------------------------------------------------------
  // Upload checks

  /** handleUpload's checks in order: a user, then a valid YouTube link, then a non-blank title. */
  function UploadRefusal(user: Option<User>, group7: Option<string>, title: string): Option<Alert>
  {
    if user.None? then Some(SignInToUpload)
    else if ExtractYouTubeId(group7).None? then Some(InvalidYouTubeUrl)
    else if IsBlank(title) then Some(TitleRequired)
    else None
  }

  /** The first failing check decides the alert, and an upload goes ahead only when all three pass. */
  lemma UploadChecksInOrder(user: Option<User>, group7: Option<string>, title: string)
    ensures UploadRefusal(user, group7, title).None? <==> user.Some? && IsValidYouTubeUrl(group7) && !IsBlank(title)
    ensures user.None? ==> UploadRefusal(user, group7, title) == Some(SignInToUpload)
    ensures user.Some? && !IsValidYouTubeUrl(group7) ==> UploadRefusal(user, group7, title) == Some(InvalidYouTubeUrl)
  {
  }

  /** The clip handleUpload stores: the uploader's id, name or "Anonymous", photo or the logo, and the form. */
  function UploadedClip(u: User, form: UploadForm, youtubeId: string): (c: NewClip)
    ensures c.userId == u.uid && c.username == OrElse(u.displayName, "Anonymous")
    ensures c.userAvatar == OrElse(u.photoURL, "/logos/logo-icon.png")
    ensures c.title == form.title && c.description == form.description && c.youtubeUrl == form.youtubeUrl
    ensures c.youtubeId == youtubeId && c.tags == form.tags && c.date == Some(form.date)
  {
    NewClip(u.uid, OrElse(u.displayName, "Anonymous"), OrElse(u.photoURL, "/logos/logo-icon.png"),
            form.title, form.description, form.youtubeUrl, youtubeId, form.tags, Some(form.date))
  }

  // ---------------------------------------------------------------------------
  // The page

  class ClipsPageState {
    const user: Option<User>
    /** `searchParams.get("date")` */
    const dateFilter: Option<string>
    var clips: seq<Clip>
    var filteredClips: seq<Clip>
    var selectedTags: seq<ClipTag>
    var sortBy: SortOrder
    var showUploadModal: bool
    var uploadForm: UploadForm
    var lastAlert: Option<Alert>

    constructor (user: Option<User>, dateFilter: Option<string>)
      ensures this.user == user && this.dateFilter == dateFilter
      ensures clips == [] && filteredClips == [] && selectedTags == [] && sortBy == Newest
      ensures !showUploadModal && uploadForm == EmptyForm && lastAlert == None
    {
      this.user := user;
      this.dateFilter := dateFilter;
      clips := [];
      filteredClips := [];
      selectedTags := [];
      sortBy := Newest;
      showUploadModal := false;
      uploadForm := EmptyForm;
      lastAlert := None;
    }

    /** loadClips: fetch every clip and, for a signed-in viewer, mark the ones they like. */
    method LoadClips(repo: ClipRepository)
      modifies this
      ensures clips == (if user.Some? then MarkClipsAsLiked(Listed(repo.docs, None), user.value.uid)
                        else Listed(repo.docs, None))
      ensures selectedTags == old(selectedTags) && sortBy == old(sortBy) && uploadForm == old(uploadForm)
      ensures showUploadModal == old(showUploadModal) && lastAlert == old(lastAlert) && filteredClips == old(filteredClips)
    {
      var fetched := repo.GetClips(None);
      clips := if user.Some? then MarkClipsAsLiked(fetched, user.value.uid) else fetched;
    }

    /** The filter-and-sort effect: filteredClips is the selected clips, reordered by the sort key. */
    method ApplyFilters()
      modifies this
      ensures multiset(filteredClips) == multiset(Selected(clips, dateFilter, selectedTags))
      ensures SortedDescending(filteredClips, SortKey(sortBy))
      ensures clips == old(clips) && selectedTags == old(selectedTags) && sortBy == old(sortBy)
      ensures uploadForm == old(uploadForm) && showUploadModal == old(showUploadModal) && lastAlert == old(lastAlert)
    {
      var selected := Selected(clips, dateFilter, selectedTags);
      var a := new Clip[|selected|](i requires 0 <= i < |selected| => selected[i]);
      assert a[..] == selected;
      SortByKeyDescending(a, SortKey(sortBy));
      filteredClips := a[..];
    }

    /** toggleTag */
    method ToggleTag(tag: ClipTag)
      modifies this
      ensures selectedTags == ToggledTags(old(selectedTags), tag)
      ensures clips == old(clips) && uploadForm == old(uploadForm) && sortBy == old(sortBy)
      ensures filteredClips == old(filteredClips) && showUploadModal == old(showUploadModal) && lastAlert == old(lastAlert)
    {
      selectedTags := ToggledTags(selectedTags, tag);
    }

    /** The upload form's tag buttons. */
    method ToggleUploadTag(tag: ClipTag)
      modifies this
      ensures uploadForm == old(uploadForm).(tags := ToggledTags(old(uploadForm).tags, tag))
      ensures clips == old(clips) && selectedTags == old(selectedTags) && sortBy == old(sortBy)
      ensures filteredClips == old(filteredClips) && showUploadModal == old(showUploadModal) && lastAlert == old(lastAlert)
    {
      uploadForm := uploadForm.(tags := ToggledTags(uploadForm.tags, tag));
    }

    /**
     * toggleLike: without a user, an alert and nothing else. Otherwise the
     * optimistic update, then the write; a failed write reloads the clips.
     */
    method ToggleLike(repo: ClipRepository, clipId: string)
      requires repo.Valid()
      modifies this, repo
      ensures repo.Valid()
      ensures selectedTags == old(selectedTags) && sortBy == old(sortBy) && uploadForm == old(uploadForm)
      ensures showUploadModal == old(showUploadModal) && filteredClips == old(filteredClips)
      ensures user.Some? ==> lastAlert == old(lastAlert)
      ensures user.None? ==> lastAlert == Some(SignInToLike) && clips == old(clips) && repo.docs == old(repo.docs)
      ensures user.Some? && FindClip(old(repo.docs), clipId).Some? ==>
        clips == Optimistic(old(clips), clipId) &&
        var k := FindClip(old(repo.docs), clipId).value;
        repo.docs == old(repo.docs)[k := ClipDoc(clipId, Toggled(old(repo.docs)[k].data, user.value.uid).0)]
      ensures user.Some? && FindClip(old(repo.docs), clipId).None? ==>
        repo.docs == old(repo.docs) && clips == MarkClipsAsLiked(Listed(repo.docs, None), user.value.uid)
    {
      if user.None? {
        lastAlert := Some(SignInToLike);
        return;
      }
      clips := Optimistic(clips, clipId);
      var r := repo.ToggleLike(clipId, user.value.uid);
      if r.Failure? {
        LoadClips(repo);
      }
    }

    /**
     * handleUpload. `linkGroup` is what the link pattern captures (its seventh group)
     * from a URL, applied to the form's URL, so the stored id comes from the stored URL;
     * `freshId` and `now` the id and time the store assigns, `insertFails` whether the
     * write rejects. Refusals and a failed write raise their alert and write nothing.
     */
    method HandleUpload(repo: ClipRepository, linkGroup: string -> Option<string>, freshId: string, now: int, insertFails: bool)
      requires repo.Valid()
      requires forall d :: d in repo.docs ==> d.id != freshId
      modifies this, repo
      ensures repo.Valid()
      ensures selectedTags == old(selectedTags) && sortBy == old(sortBy) && filteredClips == old(filteredClips)
      ensures UploadRefusal(user, linkGroup(old(uploadForm).youtubeUrl), old(uploadForm).title).Some? || insertFails ==> clips == old(clips)
      ensures var refusal := UploadRefusal(user, linkGroup(old(uploadForm).youtubeUrl), old(uploadForm).title);
        (refusal.Some? ==> lastAlert == refusal && repo.docs == old(repo.docs) && uploadForm == old(uploadForm) &&
                           showUploadModal == old(showUploadModal)) &&
        (refusal.None? && insertFails ==> lastAlert == Some(UploadFailed) && repo.docs == old(repo.docs) &&
                                          uploadForm == old(uploadForm) && showUploadModal == old(showUploadModal)) &&
        (refusal.None? && !insertFails ==>
           repo.docs == old(repo.docs) + [ClipDoc(freshId, Created(UploadedClip(user.value, old(uploadForm), linkGroup(old(uploadForm).youtubeUrl).value), now))] &&
           !showUploadModal && uploadForm == EmptyForm && lastAlert == old(lastAlert) &&
           clips == MarkClipsAsLiked(Listed(repo.docs, None), user.value.uid))
    {
      if user.None? {
        lastAlert := Some(SignInToUpload);
        return;
      }
      var youtubeId := ExtractYouTubeId(linkGroup(uploadForm.youtubeUrl));
      if youtubeId.None? {
        lastAlert := Some(InvalidYouTubeUrl);
        return;
      }
      if IsBlank(uploadForm.title) {
        lastAlert := Some(TitleRequired);
        return;
      }
      if insertFails {
        lastAlert := Some(UploadFailed);
        return;
      }
      var _ := repo.AddClip(UploadedClip(user.value, uploadForm, youtubeId.value), freshId, now);
      showUploadModal := false;
      uploadForm := EmptyForm;
      LoadClips(repo);
    }
  }
}
