/** The local project store and sync utility: load, save and clear over one
    local-storage key, the published view, the Work-page conversion, the
    cross-tab storage-event filter, and export/import. Local storage is a
    `map<string, string>`; a missing key is `getItem` returning `null`. */
module PortfolioSync {
  import opened Wrappers
  import opened Seqs
  import opened Strings
  import opened Portfolio
  import opened Json

  type Storage = map<string, string>

  const StorageKey: string := "portfolio_projects"

  const Empty: JsonValue := ProjectArray([])

  /** `loadPortfolioProjects`: the decoded stored value, or `[]` when the key
      is absent, the stored string is empty, or it does not parse. */
  function Load(c: Codec, st: Storage): (r: JsonValue)
    ensures StorageKey !in st ==> r == Empty
    ensures StorageKey in st && st[StorageKey] == "" ==> r == Empty
    ensures StorageKey in st && c.decode(st[StorageKey]).None? ==> r == Empty
    ensures StorageKey in st && st[StorageKey] != "" && c.decode(st[StorageKey]).Some?
            ==> r == c.decode(st[StorageKey]).value
  {
    if StorageKey in st && st[StorageKey] != "" then
      match c.decode(st[StorageKey])
      case Some(v) => v
      case None => Empty
    else Empty
  }

  /** `savePortfolioProjects`: overwrite the key with the JSON text of `v`.
      `written` says whether `setItem` succeeded; when it throws (quota
      exceeded, storage disabled) the error is caught and logged, and the
      store is left as it was. */
  function Save(c: Codec, st: Storage, v: JsonValue, written: bool): (r: Storage)
    ensures written ==> r.Keys == st.Keys + {StorageKey} && r[StorageKey] == c.encode(v)
    ensures !written ==> r == st
    ensures forall k :: k in st && k != StorageKey ==> k in r && r[k] == st[k]
  {
    if written then st[StorageKey := c.encode(v)] else st
  }

  /** `clearPortfolioData`: remove the key and nothing else. */
  function Clear(st: Storage): (r: Storage)
    ensures StorageKey !in r
    ensures forall k :: k in st && k != StorageKey ==> k in r && r[k] == st[k]
    ensures r.Keys == st.Keys - {StorageKey}
  {
    st - {StorageKey}
  }

  /** `load()` after `save(v)` gives `v` back when the write succeeded, and
      what it gave before when the write failed. */
  lemma LoadAfterSave(c: Codec, st: Storage, v: JsonValue, written: bool)
    requires Lawful(c)
    ensures written ==> Load(c, Save(c, st, v, written)) == v
    ensures !written ==> Load(c, Save(c, st, v, written)) == Load(c, st)
  {
    var text := c.encode(v);
    assert |text| > 0 && c.decode(text) == Some(v);
  }

  /** Saving the same value twice leaves the store as saving it once, with
      whichever of the two writes succeeded. */
  lemma SaveIdempotent(c: Codec, st: Storage, v: JsonValue, first: bool, second: bool)
    ensures Save(c, Save(c, st, v, first), v, second) == Save(c, st, v, first || second)
  {
  }

  /** `load()` after `clear()` is `[]`. */
  lemma LoadAfterClear(c: Codec, st: Storage)
    ensures Load(c, Clear(st)) == Empty
  {
  }

  /** `getPublishedProjects`: the loaded records whose status is published.
      `None` when the stored JSON is not a project array, where `.filter`
      throws a TypeError out of the function. */
  function GetPublished(c: Codec, st: Storage): (r: Option<seq<Project>>)
    ensures r.Some? <==> Load(c, st).ProjectArray?
    ensures r.Some? ==> forall p :: p in r.value <==> p in Load(c, st).projects && p.status == Published
    ensures r.Some? ==> IsSubsequence(r.value, Load(c, st).projects)
  {
    match Load(c, st)
    case ProjectArray(ps) =>
      forall p ensures p in Filter(ps, IsPublished) <==> p in ps && p.status == Published {
        FilterMembership(ps, IsPublished, p);
      }
      FilterIsSubsequence(ps, IsPublished);
      Some(Filter(ps, IsPublished))
    case OtherJson(_) => None
  }

  /** The published view after a successful `save(ps)` is exactly the
      published part of `ps`, in order; after a failed one it is unchanged. */
  lemma PublishedAfterSave(c: Codec, st: Storage, ps: seq<Project>, written: bool)
    requires Lawful(c)
    ensures written ==> GetPublished(c, Save(c, st, ProjectArray(ps), written)) == Some(Filter(ps, IsPublished))
    ensures !written ==> GetPublished(c, Save(c, st, ProjectArray(ps), written)) == GetPublished(c, st)
  {
    LoadAfterSave(c, st, ProjectArray(ps), written);
  }

  /** `convertToWorkPageFormat`: the twelve display fields copied unchanged
      and the id run through `parseInt`; the before/after images, the status
      and both timestamps are dropped. */
  function ToWorkItem(p: Project): (w: WorkItem)
    ensures w.id == ParseInt(p.id)
    ensures w.title == p.title && w.brand == p.brand && w.description == p.description
    ensures w.image == p.image && w.videoUrl == p.videoUrl && w.category == p.category
    ensures w.tags == p.tags && w.tech == p.tech && w.metrics == p.metrics
    ensures w.liveUrl == p.liveUrl && w.featured == p.featured && w.hasVideo == p.hasVideo
  {
    WorkItem(ParseInt(p.id), p.title, p.brand, p.description, p.image, p.videoUrl,
             p.category, p.tags, p.tech, p.metrics, p.liveUrl, p.featured, p.hasVideo)
  }

  /** The conversion does not depend on the fields it drops. */
  lemma ToWorkItemIgnoresCmsFields(p: Project, images: seq<BeforeAfterImage>, status: Status,
                                   createdAt: string, updatedAt: string)
    ensures ToWorkItem(p.(beforeAfterImages := images, status := status,
                          createdAt := createdAt, updatedAt := updatedAt)) == ToWorkItem(p)
  {
  }

  /** An id made by `String(n)` (such as a `Date.now()` id) converts back to `n`. */
  lemma ToWorkItemNumericId(p: Project, n: nat)
    requires p.id == ToDecimal(n)
    ensures ToWorkItem(p).id == Some(n)
  {
    ParseIntToDecimal(n);
  }

  /** An id with no leading digit, sign or white space converts to `NaN`. */
  lemma ToWorkItemNonNumericId(p: Project)
    requires |p.id| > 0 && !IsDigit(p.id[0]) && !IsJsSpace(p.id[0])
    requires p.id[0] != '-' && p.id[0] != '+'
    ensures ToWorkItem(p).id == None
  {
    ParseIntNoLeadingDigit(p.id);
  }

  function ConvertAll(ps: seq<Project>): (ws: seq<WorkItem>)
    ensures |ws| == |ps|
    ensures forall i :: 0 <= i < |ps| ==> ws[i] == ToWorkItem(ps[i])
  {
    seq(|ps|, i requires 0 <= i < |ps| => ToWorkItem(ps[i]))
  }

  /** `syncToWorkPage`: one converted record per published project, in order. */
  function SyncToWorkPage(c: Codec, st: Storage): (r: Option<seq<WorkItem>>)
    ensures r.Some? <==> GetPublished(c, st).Some?
    ensures r.Some? ==> |r.value| == |GetPublished(c, st).value|
    ensures r.Some? ==> forall i :: 0 <= i < |r.value| ==>
              r.value[i] == ToWorkItem(GetPublished(c, st).value[i])
  {
    match GetPublished(c, st)
    case Some(ps) => Some(ConvertAll(ps))
    case None => None
  }

  /** The synced list is as long as the number of published projects. */
  lemma SyncLengthIsPublishedCount(c: Codec, st: Storage)
    requires Load(c, st).ProjectArray?
    ensures SyncToWorkPage(c, st).Some?
    ensures |SyncToWorkPage(c, st).value| == Count(Load(c, st).projects, IsPublished)
  {
    CountIsFilterLength(Load(c, st).projects, IsPublished);
  }

  /** The handler `onPortfolioUpdate` installs: the callback receives the
      parsed value (`Some`) exactly when the event is for the projects key,
      carries a non-empty new value, and that value parses. */
  function OnStorageEvent(c: Codec, key: Option<string>, newValue: Option<string>): (r: Option<JsonValue>)
    ensures r.Some? <==> key == Some(StorageKey) && newValue.Some? && newValue.value != ""
                         && c.decode(newValue.value).Some?
    ensures r.Some? ==> r == c.decode(newValue.value)
  {
    if key == Some(StorageKey) && newValue.Some? && newValue.value != "" then
      c.decode(newValue.value)
    else None
  }

  /** A `save(ps)` seen from another tab delivers `ps` to the callback. Only
      a write that succeeded raises a storage event. */
  lemma StorageEventAfterSave(c: Codec, st: Storage, ps: seq<Project>)
    requires Lawful(c)
    ensures var after := Save(c, st, ProjectArray(ps), true);
            OnStorageEvent(c, Some(StorageKey), Some(after[StorageKey])) == Some(ProjectArray(ps))
  {
    var text := c.encode(ProjectArray(ps));
    assert |text| > 0 && c.decode(text) == Some(ProjectArray(ps));
  }

  /** A `clear()` seen from another tab (new value `null`) does not call the callback. */
  lemma StorageEventAfterClear(c: Codec)
    ensures OnStorageEvent(c, Some(StorageKey), None) == None
  {
  }

  /** `exportPortfolioData`: the pretty-printed JSON of what `load()` returns. */
  function Export(c: Codec, st: Storage): (text: string)
    ensures Lawful(c) ==> c.decode(text) == Some(Load(c, st))
  {
    c.encodePretty(Load(c, st))
  }

  datatype ImportResult = ImportResult(ok: bool, storage: Storage)

  /** `importPortfolioData`: parse the text and, if that succeeds, save the
      parsed value (re-encoded) whatever its shape and report success;
      otherwise report failure and leave the store alone. The save swallows
      its own write failure, so success is reported on parsing alone, even
      when `written` is false and the store keeps its old value. */
  function Import(c: Codec, st: Storage, text: string, written: bool): (r: ImportResult)
    ensures r.ok <==> c.decode(text).Some?
    ensures !r.ok ==> r.storage == st
    ensures r.ok && written ==> r.storage == st[StorageKey := c.encode(c.decode(text).value)]
    ensures r.ok && !written ==> r.storage == st
  {
    match c.decode(text)
    case Some(v) => ImportResult(true, Save(c, st, v, written))
    case None => ImportResult(false, st)
  }

  /** After a reported success, `load()` returns the imported value when the
      write went through, and the old value when it did not. */
  lemma LoadAfterImport(c: Codec, st: Storage, text: string, written: bool)
    requires Lawful(c)
    requires Import(c, st, text, written).ok
    ensures written ==> Load(c, Import(c, st, text, written).storage) == c.decode(text).value
    ensures !written ==> Load(c, Import(c, st, text, written).storage) == Load(c, st)
  {
    LoadAfterSave(c, st, c.decode(text).value, written);
  }

  /** Importing what was exported succeeds and leaves `load()` unchanged,
      whether or not the write goes through. */
  lemma ImportExportRoundTrip(c: Codec, st: Storage, written: bool)
    requires Lawful(c)
    ensures Import(c, st, Export(c, st), written).ok
    ensures Load(c, Import(c, st, Export(c, st), written).storage) == Load(c, st)
  {
    LoadAfterSave(c, st, Load(c, st), written);
  }
}
