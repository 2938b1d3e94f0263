/** The CMS editor as a state machine: the in-memory project list, the
    edit form, the filters, the before/after modal, and local storage.
    Every mutation goes through `ProjectsChanged`, which replaces the list
    and then writes it to storage with an uncaught `setItem`. Whether that
    write succeeds is a parameter, `written`: when it does, the persisted
    array is the list in memory; when it throws, the list has already been
    replaced, storage keeps the old value, and the rest of the handler does
    not run. Timestamps (`new Date().toISOString()`) and `Date.now()` ids
    are parameters.

    Not modelled: the sample-data effect, which sets the list to eighteen
    sample projects (ids "1" to "18"). The admin page renders the editor
    without props, so its dependency `initialProjects` is the `[]` default,
    a new array on every render; React compares dependencies by identity,
    so the effect re-runs after every render and overwrites the loaded list
    and every later edit in memory. */
module Cms {
  import opened Wrappers
  import opened Seqs
  import opened Portfolio
  import opened Json
  import opened PortfolioSync
  import opened ProjectList

  /** The status drop-down: "all" or one status. */
  datatype StatusFilter = AnyStatus | OnlyStatus(status: Status)

  const AllCategories: string := "all"

  datatype CmsState = CmsState(
    projects: seq<Project>,
    isEditing: bool,
    editing: Option<Project>,
    statusFilter: StatusFilter,
    category: string,
    comparisonModalOpen: bool,
    comparisonTarget: Option<string>,
    storage: Storage)

  /** The persisted array is the list in memory. */
  ghost predicate Persisted(c: Codec, s: CmsState)
  {
    Load(c, s.storage) == ProjectArray(s.projects)
  }

  /** `handleProjectsChange`: replace the list, then write it to storage;
      a failed write leaves storage as it was but the list replaced. */
  function ProjectsChanged(c: Codec, s: CmsState, ps: seq<Project>, written: bool): (r: CmsState)
    ensures r.projects == ps
    ensures written ==> r.storage == s.storage[StorageKey := c.encode(ProjectArray(ps))]
    ensures !written ==> r.storage == s.storage
    ensures r.(projects := s.projects, storage := s.storage) == s
  {
    s.(projects := ps, storage := Save(c, s.storage, ProjectArray(ps), written))
  }

  /** After `handleProjectsChange` the stored array is the new list exactly
      when the write went through or storage already held that list. */
  lemma ProjectsChangedPersists(c: Codec, s: CmsState, ps: seq<Project>, written: bool)
    requires Lawful(c)
    ensures written ==> Persisted(c, ProjectsChanged(c, s, ps, written))
    ensures Persisted(c, ProjectsChanged(c, s, ps, written)) <==>
              written || Load(c, s.storage) == ProjectArray(ps)
  {
    LoadAfterSave(c, s.storage, ProjectArray(ps), written);
  }

  /** A failed write splits memory from storage: starting in sync, a change
      to a different list leaves the editor showing a list that is not the
      stored one. */
  lemma FailedWriteDesyncs(c: Codec, s: CmsState, ps: seq<Project>)
    requires Lawful(c) && Persisted(c, s) && ps != s.projects
    ensures ProjectsChanged(c, s, ps, false).projects == ps
    ensures !Persisted(c, ProjectsChanged(c, s, ps, false))
  {
    ProjectsChangedPersists(c, s, ps, false);
  }

  /** The mount effect: a non-empty stored value that parses replaces the
      initial list; an absent, empty or unparseable value keeps it. `None`
      when the stored JSON parses to something other than a project array,
      which the editor would then fail to render. */
  function Mount(c: Codec, s: CmsState): (r: Option<CmsState>)
    ensures StorageKey !in s.storage || s.storage[StorageKey] == "" ==> r == Some(s)
    ensures StorageKey in s.storage && c.decode(s.storage[StorageKey]).None? ==> r == Some(s)
    ensures r.Some? ==> r.value.(projects := s.projects) == s
    ensures r.None? <==> Load(c, s.storage).OtherJson?
    ensures (r.Some? && StorageKey in s.storage && s.storage[StorageKey] != "" &&
             c.decode(s.storage[StorageKey]).Some?) ==> r.value.projects == Load(c, s.storage).projects
  {
    if StorageKey in s.storage && s.storage[StorageKey] != "" then
      match c.decode(s.storage[StorageKey])
      case Some(ProjectArray(ps)) => Some(s.(projects := ps))
      case Some(OtherJson(_)) => None
      case None => Some(s)
    else Some(s)
  }

  /** Reopening the editor on a store it wrote shows the list it wrote. */
  lemma MountAfterProjectsChanged(c: Codec, s: CmsState, ps: seq<Project>, later: CmsState)
    requires Lawful(c)
    requires later.storage == ProjectsChanged(c, s, ps, true).storage
    ensures Mount(c, later) == Some(later.(projects := ps))
  {
    ProjectsChangedPersists(c, s, ps, true);
  }

  /** The record `createNewProject` opens in the form. */
  function NewProject(id: string, now: string): (p: Project)
    ensures p.status == Draft && p.title == "New Project" && p.category == "Fashion"
    ensures p.tags == [] && p.tech == [] && p.beforeAfterImages == []
    ensures p.metrics == Metrics("0%", "0s")
    ensures p.brand == "" && p.description == "" && p.image == "" && p.liveUrl == ""
    ensures p.videoUrl == None && !p.featured && !p.hasVideo
    ensures p.id == id && p.createdAt == now && p.updatedAt == now
  {
    Project(id, "New Project", "", "", "Fashion", [], [], "", None, "", false, false,
            Metrics("0%", "0s"), [], Draft, now, now)
  }

  /** `createNewProject`: open the form on a fresh draft; nothing is stored yet. */
  function CreateNewProject(s: CmsState, id: string, now: string): (r: CmsState)
    ensures r.isEditing && r.editing == Some(NewProject(id, now))
    ensures r.(isEditing := s.isEditing, editing := s.editing) == s
  {
    s.(editing := Some(NewProject(id, now)), isEditing := true)
  }

  /** `editProject`: open the form on a copy of `p`. */
  function EditProject(s: CmsState, p: Project): (r: CmsState)
    ensures r.isEditing && r.editing == Some(p)
    ensures r.(isEditing := s.isEditing, editing := s.editing) == s
  {
    s.(editing := Some(p), isEditing := true)
  }

  /** The form's X and Cancel buttons: hide the form. The record stays in
      `editing` and nothing is stored. */
  function CancelEdit(s: CmsState): (r: CmsState)
    ensures !r.isEditing
    ensures r.(isEditing := s.isEditing) == s
  {
    s.(isEditing := false)
  }

  /** `saveProject`: with no record in the form nothing happens; otherwise
      the record, stamped with `now`, is upserted by id and the list is
      persisted; the form is closed only when the write succeeded, since a
      failed write throws out of the handler before it gets there. */
  function SaveProject(c: Codec, s: CmsState, now: string, written: bool): (r: CmsState)
    ensures s.editing.None? ==> r == s
    ensures s.editing.Some? ==>
      r.projects == Upsert(s.projects, s.editing.value.(updatedAt := now))
    ensures s.editing.Some? ==> r.storage == Save(c, s.storage, ProjectArray(r.projects), written)
    ensures s.editing.Some? && written ==> !r.isEditing && r.editing.None?
    ensures !written ==> r.isEditing == s.isEditing && r.editing == s.editing
    ensures r.(projects := s.projects, storage := s.storage, isEditing := s.isEditing, editing := s.editing) == s
  {
    match s.editing
    case None => s
    case Some(p) =>
      var changed := ProjectsChanged(c, s, Upsert(s.projects, p.(updatedAt := now)), written);
      if written then changed.(isEditing := false, editing := None) else changed
  }

  /** `deleteProject`: drop exactly the records with `id`, keep the rest in
      order, and persist. */
  function DeleteProject(c: Codec, s: CmsState, id: string, written: bool): (r: CmsState)
    ensures forall p :: p in r.projects <==> p in s.projects && p.id != id
    ensures IsSubsequence(r.projects, s.projects)
    ensures |r.projects| == Count(s.projects, (p: Project) => p.id != id)
    ensures r.storage == Save(c, s.storage, ProjectArray(r.projects), written)
    ensures r.(projects := s.projects, storage := s.storage) == s
  {
    RemoveIdExact(s.projects, id);
    ProjectsChanged(c, s, RemoveId(s.projects, id), written)
  }

  /** `addBeforeAfterImage`: open the comparison modal for project `id`. */
  function OpenComparison(s: CmsState, id: string): (r: CmsState)
    ensures r.comparisonModalOpen && r.comparisonTarget == Some(id)
    ensures r.(comparisonModalOpen := s.comparisonModalOpen, comparisonTarget := s.comparisonTarget) == s
  {
    s.(comparisonTarget := Some(id), comparisonModalOpen := true)
  }

  /** `saveBeforeAfterImage`: append `image` to the comparisons of the
      projects with `id`, stamp them with `now`, leave the others alone, and
      persist. */
  function SaveBeforeAfterImage(c: Codec, s: CmsState, id: string, image: BeforeAfterImage, now: string,
                                written: bool): (r: CmsState)
    ensures |r.projects| == |s.projects|
    ensures forall i :: 0 <= i < |s.projects| && s.projects[i].id != id ==> r.projects[i] == s.projects[i]
    ensures forall i :: 0 <= i < |s.projects| && s.projects[i].id == id ==>
      && r.projects[i].beforeAfterImages == s.projects[i].beforeAfterImages + [image]
      && r.projects[i] == s.projects[i].(beforeAfterImages := r.projects[i].beforeAfterImages, updatedAt := now)
    ensures r.storage == Save(c, s.storage, ProjectArray(r.projects), written)
    ensures r.(projects := s.projects, storage := s.storage) == s
  {
    ProjectsChanged(c, s, AddComparison(s.projects, id, image, now), written)
  }

  /** The modal's `onSave`: with a target project, save the comparison and
      close the modal; without one, do nothing. The guard is the target's
      truthiness, so an empty id counts as no target. A failed write throws
      out of the save, so the modal then stays open on its target. */
  function ComparisonSubmitted(c: Codec, s: CmsState, image: BeforeAfterImage, now: string,
                               written: bool): (r: CmsState)
    ensures s.comparisonTarget.None? || s.comparisonTarget == Some("") ==> r == s
    ensures s.comparisonTarget.Some? && s.comparisonTarget.value != "" ==>
      && r.projects == AddComparison(s.projects, s.comparisonTarget.value, image, now)
      && r.storage == Save(c, s.storage, ProjectArray(r.projects), written)
    ensures s.comparisonTarget.Some? && s.comparisonTarget.value != "" && written ==>
      !r.comparisonModalOpen && r.comparisonTarget.None?
    ensures !written ==> r.comparisonModalOpen == s.comparisonModalOpen && r.comparisonTarget == s.comparisonTarget
    ensures r.(projects := s.projects, storage := s.storage,
               comparisonModalOpen := s.comparisonModalOpen, comparisonTarget := s.comparisonTarget) == s
  {
    if s.comparisonTarget.Some? && s.comparisonTarget.value != "" then
      var saved := SaveBeforeAfterImage(c, s, s.comparisonTarget.value, image, now, written);
      if written then saved.(comparisonModalOpen := false, comparisonTarget := None) else saved
    else s
  }

  /** The modal's `onClose`. */
  function ComparisonClosed(s: CmsState): (r: CmsState)
    ensures !r.comparisonModalOpen && r.comparisonTarget.None?
    ensures r.(comparisonModalOpen := s.comparisonModalOpen, comparisonTarget := s.comparisonTarget) == s
  {
    s.(comparisonModalOpen := false, comparisonTarget := None)
  }

  const BlankComparison: BeforeAfterImage :=
    BeforeAfterImage("", "", "", "", "", ComparisonMetrics(None, None, None))

  /** `BeforeAfterModal.handleSave`: emit the form's comparison under a
      fresh `Date.now()` id, and reset the form to blank. `completed` says
      whether the parent's `onSave` returned; when it throws (its storage
      write failed) the reset does not run and the form keeps its fields. */
  function ModalSave(form: BeforeAfterImage, freshId: string, completed: bool): (r: (BeforeAfterImage, BeforeAfterImage))
    ensures r.0 == form.(id := freshId)
    ensures completed ==> r.1 == BlankComparison
    ensures !completed ==> r.1 == form
  {
    (form.(id := freshId), if completed then BlankComparison else form)
  }

  predicate MatchesFilters(statusFilter: StatusFilter, category: string, p: Project)
  {
    && (statusFilter.AnyStatus? || p.status == statusFilter.status)
    && (category == AllCategories || p.category == category)
  }

  /** `filteredProjects`: the records passing both drop-downs, in list order. */
  function Filtered(s: CmsState): (r: seq<Project>)
    ensures IsSubsequence(r, s.projects)
    ensures forall p :: p in r <==> p in s.projects && MatchesFilters(s.statusFilter, s.category, p)
    ensures |r| == Count(s.projects, p => MatchesFilters(s.statusFilter, s.category, p))
  {
    var keep := p => MatchesFilters(s.statusFilter, s.category, p);
    CountIsFilterLength(s.projects, keep);
    FilterIsSubsequence(s.projects, keep);
    forall p ensures p in Filter(s.projects, keep) <==> p in s.projects && keep(p) {
      FilterMembership(s.projects, keep, p);
    }
    Filter(s.projects, keep)
  }

  /** With both drop-downs on "all", every record is shown in order. */
  lemma FilteredAllShowsEverything(s: CmsState)
    requires s.statusFilter == AnyStatus && s.category == AllCategories
    ensures Filtered(s) == s.projects
  {
    FilterAll(s.projects, p => MatchesFilters(s.statusFilter, s.category, p));
  }

  /** The header counts: total, published, drafts. */
  datatype Stats = Stats(total: nat, published: nat, drafts: nat)

  /** The three header figures: the list's length and the lengths of its
      published and draft parts; archived records count in the total only. */
  function CountStats(ps: seq<Project>): (r: Stats)
    ensures r.total == |ps|
    ensures r.published == |Filter(ps, IsPublished)| && r.drafts == |Filter(ps, IsDraft)|
    ensures r.published + r.drafts <= r.total
  {
    DisjointCounts(ps, IsPublished, IsDraft);
    CountIsFilterLength(ps, IsPublished);
    CountIsFilterLength(ps, IsDraft);
    Stats(|ps|, Count(ps, IsPublished), Count(ps, IsDraft))
  }

  /** Each header figure is the number of cards the list shows when the
      status drop-down is set to match it and the category is "all". */
  lemma HeaderCountsMatchFilters(s: CmsState)
    requires s.category == AllCategories
    ensures s.statusFilter == AnyStatus ==> |Filtered(s)| == CountStats(s.projects).total
    ensures s.statusFilter == OnlyStatus(Published) ==> |Filtered(s)| == CountStats(s.projects).published
    ensures s.statusFilter == OnlyStatus(Draft) ==> |Filtered(s)| == CountStats(s.projects).drafts
  {
    var keep := p => MatchesFilters(s.statusFilter, s.category, p);
    if s.statusFilter == AnyStatus {
      FilteredAllShowsEverything(s);
    } else if s.statusFilter == OnlyStatus(Published) {
      FilterCongruent(s.projects, keep, IsPublished);
    } else if s.statusFilter == OnlyStatus(Draft) {
      FilterCongruent(s.projects, keep, IsDraft);
    }
  }

  // ---------------------------------------------------------------------
  // Every mutation whose write succeeds leaves the persisted array equal to
  // the in-memory list; one whose write fails leaves them equal only if
  // storage already held the new list.

  lemma SaveProjectPersists(c: Codec, s: CmsState, now: string, written: bool)
    requires Lawful(c) && (s.editing.Some? || Persisted(c, s))
    ensures written ==> Persisted(c, SaveProject(c, s, now, written))
    ensures Persisted(c, SaveProject(c, s, now, written)) <==>
              written || s.editing.None? || Load(c, s.storage) == ProjectArray(SaveProject(c, s, now, written).projects)
  {
    if s.editing.Some? {
      ProjectsChangedPersists(c, s, Upsert(s.projects, s.editing.value.(updatedAt := now)), written);
    }
  }

  lemma DeleteProjectPersists(c: Codec, s: CmsState, id: string, written: bool)
    requires Lawful(c)
    ensures written ==> Persisted(c, DeleteProject(c, s, id, written))
    ensures Persisted(c, DeleteProject(c, s, id, written)) <==>
              written || Load(c, s.storage) == ProjectArray(RemoveId(s.projects, id))
  {
    ProjectsChangedPersists(c, s, RemoveId(s.projects, id), written);
  }

  lemma SaveBeforeAfterImagePersists(c: Codec, s: CmsState, id: string, image: BeforeAfterImage, now: string,
                                     written: bool)
    requires Lawful(c)
    ensures written ==> Persisted(c, SaveBeforeAfterImage(c, s, id, image, now, written))
    ensures Persisted(c, SaveBeforeAfterImage(c, s, id, image, now, written)) <==>
              written || Load(c, s.storage) == ProjectArray(AddComparison(s.projects, id, image, now))
  {
    ProjectsChangedPersists(c, s, AddComparison(s.projects, id, image, now), written);
  }

  // ---------------------------------------------------------------------
  // Ids stay pairwise distinct when the form holds a record whose id is
  // either already in the list or new.

  lemma SaveProjectKeepsUniqueIds(c: Codec, s: CmsState, now: string, written: bool)
    requires UniqueIds(s.projects)
    ensures UniqueIds(SaveProject(c, s, now, written).projects)
  {
    if s.editing.Some? {
      UpsertKeepsUniqueIds(s.projects, s.editing.value.(updatedAt := now));
    }
  }

  lemma DeleteProjectKeepsUniqueIds(c: Codec, s: CmsState, id: string, written: bool)
    requires UniqueIds(s.projects)
    ensures UniqueIds(DeleteProject(c, s, id, written).projects)
  {
    RemoveKeepsUniqueIds(s.projects, id);
  }

  lemma SaveBeforeAfterImageKeepsUniqueIds(c: Codec, s: CmsState, id: string, image: BeforeAfterImage, now: string,
                                           written: bool)
    requires UniqueIds(s.projects)
    ensures UniqueIds(SaveBeforeAfterImage(c, s, id, image, now, written).projects)
  {
    AddComparisonKeepsUniqueIds(s.projects, id, image, now);
  }

  // ---------------------------------------------------------------------
  // Flows through the form and the modal

  /** Editing the record at position k (ids distinct), changing anything but
      its id, and saving with a successful write puts the edited record,
      stamped, at position k, leaves every other record, and closes the form. */
  lemma EditThenSave(c: Codec, s: CmsState, k: nat, edited: Project, now: string)
    requires UniqueIds(s.projects) && k < |s.projects| && edited.id == s.projects[k].id
    ensures var r := SaveProject(c, EditProject(s, edited), now, true);
      && |r.projects| == |s.projects|
      && r.projects[k] == edited.(updatedAt := now)
      && (forall j :: 0 <= j < |s.projects| && j != k ==> r.projects[j] == s.projects[j])
      && !r.isEditing && r.editing.None?
  {
    UpsertExisting(s.projects, edited.(updatedAt := now), k);
  }

  /** Opening the form and cancelling it leaves everything as it was except
      that the record stays behind, hidden, in `editing`. */
  lemma EditThenCancel(s: CmsState, p: Project)
    ensures CancelEdit(EditProject(s, p)) == s.(isEditing := false, editing := Some(p))
  {
  }

  /** Opening the modal for `id` and submitting a comparison with a
      successful write appends it to the records with `id`, stores the new
      list, and closes the modal; nothing else changes. */
  lemma OpenThenSubmitComparison(c: Codec, s: CmsState, id: string, image: BeforeAfterImage, now: string)
    requires Lawful(c) && id != ""
    ensures var r := ComparisonSubmitted(c, OpenComparison(s, id), image, now, true);
      && r.projects == AddComparison(s.projects, id, image, now)
      && Persisted(c, r)
      && r.(projects := s.projects, storage := s.storage) == s.(comparisonModalOpen := false, comparisonTarget := None)
  {
    SaveBeforeAfterImagePersists(c, OpenComparison(s, id), id, image, now, true);
  }

  /** Opening the modal and closing it changes nothing but clearing the target. */
  lemma OpenThenCloseComparison(s: CmsState, id: string)
    ensures ComparisonClosed(OpenComparison(s, id)) == s.(comparisonModalOpen := false, comparisonTarget := None)
  {
  }

  // ---------------------------------------------------------------------
  // Scenarios

  /** Creating a project on an empty list and saving it stores exactly one
      draft when the write succeeds. */
  lemma CreateThenSaveScenario(c: Codec, s: CmsState, id: string, t0: string, t1: string)
    requires Lawful(c) && s.projects == []
    ensures var r := SaveProject(c, CreateNewProject(s, id, t0), t1, true);
      && Load(c, r.storage) == ProjectArray(r.projects)
      && |r.projects| == 1
      && r.projects[0].status == Draft
      && r.projects[0].title == "New Project"
  {
    var s1 := CreateNewProject(s, id, t0);
    SaveProjectPersists(c, s1, t1, true);
  }

  /** Deleting the second of three distinct ids keeps the first and third. */
  lemma DeleteSecondOfThreeScenario(c: Codec, s: CmsState)
    requires Lawful(c) && |s.projects| == 3 && UniqueIds(s.projects)
    ensures var r := DeleteProject(c, s, s.projects[1].id, true);
      && r.projects == [s.projects[0], s.projects[2]]
      && Load(c, r.storage) == ProjectArray([s.projects[0], s.projects[2]])
  {
    RemoveUniqueId(s.projects, 1);
    assert s.projects[..1] + s.projects[2..] == [s.projects[0], s.projects[2]];
    DeleteProjectPersists(c, s, s.projects[1].id, true);
  }
}
