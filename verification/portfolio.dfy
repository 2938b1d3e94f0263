/** The records the CMS edits and the public gallery shows. */
module Portfolio {
  import opened Wrappers

  datatype Status = Draft | Published | Archived

  /** The headline metrics pair shown on a project card. */
  datatype Metrics = Metrics(conversion: string, loadTime: string)

  /** The optional metrics of one before/after comparison. */
  datatype ComparisonMetrics = ComparisonMetrics(
    conversion: Option<string>,
    loadTime: Option<string>,
    engagement: Option<string>)

  /** One before/after image comparison nested under a project. */
  datatype BeforeAfterImage = BeforeAfterImage(
    id: string,
    before: string,
    after: string,
    title: string,
    description: string,
    metrics: ComparisonMetrics)

  /** A portfolio project as the CMS stores it. */
  datatype Project = Project(
    id: string,
    title: string,
    brand: string,
    description: string,
    category: string,
    tags: seq<string>,
    tech: seq<string>,
    image: string,
    videoUrl: Option<string>,
    liveUrl: string,
    featured: bool,
    hasVideo: bool,
    metrics: Metrics,
    beforeAfterImages: seq<BeforeAfterImage>,
    status: Status,
    createdAt: string,
    updatedAt: string)

  /** A project in the shape the public Work page renders. `id` is a
      JavaScript number, so it may be `NaN` (`None`). */
  datatype WorkItem = WorkItem(
    id: Option<int>,
    title: string,
    brand: string,
    description: string,
    image: string,
    videoUrl: Option<string>,
    category: string,
    tags: seq<string>,
    tech: seq<string>,
    metrics: Metrics,
    liveUrl: string,
    featured: bool,
    hasVideo: bool)

  predicate IsPublished(p: Project)
  {
    p.status == Published
  }

  predicate IsDraft(p: Project)
  {
    p.status == Draft
  }

  /** Project ids are pairwise distinct. */
  predicate UniqueIds(ps: seq<Project>)
  {
    forall i, j :: 0 <= i < j < |ps| ==> ps[i].id != ps[j].id
  }
}
