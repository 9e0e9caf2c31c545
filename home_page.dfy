// The home page: the list of saved projects, its search box, the status
// badge colours, the relative "updated" times and deleting a project.
module HomePage {
  import opened Basics

  /** One row of the project list. */
  datatype ProjectListItem = ProjectListItem(
    id: string,
    name: string,
    address: string,
    totalCost: real,
    status: string,
    updatedAt: string)

  // ---------------------------------------------------------------------------
  // Search
  // ---------------------------------------------------------------------------

  /** A project matches when its lower-cased name or address contains the lower-cased query. */
  predicate Matches(query: string, p: ProjectListItem) {
    Contains(ToLower(p.name), ToLower(query)) || Contains(ToLower(p.address), ToLower(query))
  }

  function MatchesQuery(query: string): ProjectListItem -> bool {
    (p: ProjectListItem) => Matches(query, p)
  }

  /** `filteredProjects`. */
  function FilteredProjects(ps: seq<ProjectListItem>, query: string): seq<ProjectListItem> {
    Filter(ps, MatchesQuery(query))
  }

  /** The list shows exactly the matching projects, in their original order. */
  lemma FilteredIsMatchingSubsequence(ps: seq<ProjectListItem>, query: string)
    ensures IsSubsequence(FilteredProjects(ps, query), ps)
    ensures forall i :: 0 <= i < |FilteredProjects(ps, query)| ==> Matches(query, FilteredProjects(ps, query)[i])
    ensures forall i :: 0 <= i < |ps| ==> (ps[i] in FilteredProjects(ps, query) <==> Matches(query, ps[i]))
    ensures forall x :: multiset(FilteredProjects(ps, query))[x] == if Matches(query, x) then multiset(ps)[x] else 0
  {
    var r := FilteredProjects(ps, query);
    assert forall x :: multiset(r)[x] == if Matches(query, x) then multiset(ps)[x] else 0 by {
      FilterMultiset(ps, MatchesQuery(query));
      forall x: ProjectListItem ensures multiset(r)[x] == if Matches(query, x) then multiset(ps)[x] else 0 {
        assert MatchesQuery(query)(x) == Matches(query, x);
      }
    }
    assert IsSubsequence(r, ps) && forall i :: 0 <= i < |r| ==> Matches(query, r[i]) by {
      FilterIsSubsequence(ps, MatchesQuery(query));
      forall i | 0 <= i < |r| ensures Matches(query, r[i]) {
        assert MatchesQuery(query)(r[i]);
      }
    }
    forall i | 0 <= i < |ps| ensures ps[i] in r <==> Matches(query, ps[i]) {
      assert ps[i] in multiset(ps);
      assert multiset(r)[ps[i]] == if Matches(query, ps[i]) then multiset(ps)[ps[i]] else 0;
    }
  }

  /** An empty search box lists every project. */
  lemma EmptyQueryKeepsAll(ps: seq<ProjectListItem>)
    ensures FilteredProjects(ps, "") == ps
  {
    forall i | 0 <= i < |ps| ensures MatchesQuery("")(ps[i]) {
      ContainsEmpty(ToLower(ps[i].name));
    }
    FilterKeepsAll(ps, MatchesQuery(""));
  }

  /** The search ignores the case of the query's ASCII letters. */
  lemma SearchIgnoresQueryCase(ps: seq<ProjectListItem>, query: string)
    ensures FilteredProjects(ps, ToLower(query)) == FilteredProjects(ps, query)
  {
    ToLowerIdempotent(query);
    FilterCongruent(ps, MatchesQuery(ToLower(query)), MatchesQuery(query));
  }

  /** A project that matches a longer query matches every prefix of it. */
  lemma MatchesPrefix(query: string, more: string, p: ProjectListItem)
    requires Matches(query + more, p)
    ensures Matches(query, p)
  {
    ToLowerConcat(query, more);
    if Contains(ToLower(p.name), ToLower(query + more)) {
      ContainsPrefixOfSub(ToLower(p.name), ToLower(query), ToLower(more));
    } else {
      ContainsPrefixOfSub(ToLower(p.address), ToLower(query), ToLower(more));
    }
  }

  /** Typing more characters only narrows the list: the longer query's list is the shorter one's, filtered again. */
  lemma TypingNarrows(ps: seq<ProjectListItem>, query: string, more: string)
    ensures FilteredProjects(FilteredProjects(ps, query), query + more) == FilteredProjects(ps, query + more)
    ensures IsSubsequence(FilteredProjects(ps, query + more), FilteredProjects(ps, query))
  {
    forall i | 0 <= i < |ps|
      ensures MatchesQuery(query + more)(ps[i]) == (MatchesQuery(query)(ps[i]) && MatchesQuery(query + more)(ps[i]))
    {
      if Matches(query + more, ps[i]) {
        MatchesPrefix(query, more, ps[i]);
      }
    }
    FilterTwice(ps, MatchesQuery(query), MatchesQuery(query + more), MatchesQuery(query + more));
    FilterIsSubsequence(FilteredProjects(ps, query), MatchesQuery(query + more));
  }

  // ---------------------------------------------------------------------------
  // Status badge
  // ---------------------------------------------------------------------------

  datatype StatusColors = StatusColors(bg: string, text: string)

  const DraftColors := StatusColors("gray.100", "gray.600")

  /** `getStatusColor`: the four known statuses have their own colours; anything else looks like a draft. */
  function StatusColor(status: string): StatusColors {
    if status == "draft" then DraftColors
    else if status == "quoted" then StatusColors("blue.100", "blue.700")
    else if status == "approved" then StatusColors("green.100", "green.700")
    else if status == "completed" then StatusColors("purple.100", "purple.700")
    else DraftColors
  }

  predicate KnownStatus(status: string) {
    status == "draft" || status == "quoted" || status == "approved" || status == "completed"
  }

  /** Unknown statuses fall back to the draft colours, and the four known statuses are told apart by colour. */
  lemma StatusColorsDistinguishKnown(a: string, b: string)
    ensures !KnownStatus(a) ==> StatusColor(a) == StatusColor("draft")
    ensures KnownStatus(a) && KnownStatus(b) && a != b ==> StatusColor(a) != StatusColor(b)
    ensures StatusColor(a) != DraftColors ==> KnownStatus(a) && a != "draft"
  {
  }

  // ---------------------------------------------------------------------------
  // Relative times
  // ---------------------------------------------------------------------------

  const MsPerMinute: int := 60000
  const MsPerHour: int := 3600000
  const MsPerDay: int := 86400000

  /** How long ago a project was updated, in the page's buckets. */
  datatype Elapsed = JustNow | MinutesAgo(minutes: int) | HoursAgo(hours: int) | DaysAgo(days: int) | OnDate

  /**
   * The bucket of an elapsed time in milliseconds (`None` when the stored date
   * does not parse, which makes every comparison false). Division by a positive
   * constant here rounds down, as `Math.floor` of the quotient does.
   */
  function Bucket(diffMs: Option<int>): Elapsed {
    match diffMs
    case None => OnDate
    case Some(d) =>
      var mins, hours, days := d / MsPerMinute, d / MsPerHour, d / MsPerDay;
      if mins < 1 then JustNow
      else if mins < 60 then MinutesAgo(mins)
      else if hours < 24 then HoursAgo(hours)
      else if days < 7 then DaysAgo(days)
      else OnDate
  }

  /** `formatDate`: `localeDate` is the browser's rendering of the date, used after a week. */
  function FormatDate(diffMs: Option<int>, localeDate: string): string {
    match Bucket(diffMs)
    case JustNow => "Just now"
    case MinutesAgo(m) => IntToString(m) + "m ago"
    case HoursAgo(h) => IntToString(h) + "h ago"
    case DaysAgo(d) => IntToString(d) + "d ago"
    case OnDate => localeDate
  }

  /** The buckets by elapsed milliseconds, each count being the whole units elapsed. */
  lemma BucketThresholds(d: int)
    ensures d < 60000 ==> Bucket(Some(d)) == JustNow
    ensures 60000 <= d < 3600000 ==>
              Bucket(Some(d)).MinutesAgo? && 1 <= Bucket(Some(d)).minutes < 60
              && Bucket(Some(d)).minutes * 60000 <= d < (Bucket(Some(d)).minutes + 1) * 60000
    ensures 3600000 <= d < 86400000 ==>
              Bucket(Some(d)).HoursAgo? && 1 <= Bucket(Some(d)).hours < 24
              && Bucket(Some(d)).hours * 3600000 <= d < (Bucket(Some(d)).hours + 1) * 3600000
    ensures 86400000 <= d < 604800000 ==>
              Bucket(Some(d)).DaysAgo? && 1 <= Bucket(Some(d)).days < 7
              && Bucket(Some(d)).days * 86400000 <= d < (Bucket(Some(d)).days + 1) * 86400000
    ensures d >= 604800000 ==> Bucket(Some(d)) == OnDate
  {
  }

  /** A date in the future (a negative difference) reads "Just now"; a date that does not parse shows the locale text. */
  lemma FutureIsJustNow(d: int, localeDate: string)
    requires d < 0
    ensures FormatDate(Some(d), localeDate) == "Just now"
    ensures FormatDate(None, localeDate) == localeDate
  {
  }

  function BucketRank(e: Elapsed): nat {
    match e
    case JustNow => 0
    case MinutesAgo(_) => 1
    case HoursAgo(_) => 2
    case DaysAgo(_) => 3
    case OnDate => 4
  }

  /** The older the date, the coarser (or equal) its bucket. */
  lemma BucketMonotone(a: int, b: int)
    requires a <= b
    ensures BucketRank(Bucket(Some(a))) <= BucketRank(Bucket(Some(b)))
  {
    BucketThresholds(a);
    BucketThresholds(b);
  }

  // ---------------------------------------------------------------------------
  // Deleting
  // ---------------------------------------------------------------------------

  function HasOtherId(id: string): ProjectListItem -> bool {
    (p: ProjectListItem) => p.id != id
  }

  /** The list with every project of that id dropped. */
  function WithoutProject(ps: seq<ProjectListItem>, id: string): seq<ProjectListItem> {
    Filter(ps, HasOtherId(id))
  }

  /** Deleting keeps, in order, exactly the projects with another id. */
  lemma WithoutProjectSpec(ps: seq<ProjectListItem>, id: string)
    ensures IsSubsequence(WithoutProject(ps, id), ps)
    ensures forall i :: 0 <= i < |WithoutProject(ps, id)| ==> WithoutProject(ps, id)[i].id != id
    ensures forall x :: multiset(WithoutProject(ps, id))[x] == if x.id == id then 0 else multiset(ps)[x]
    ensures (forall i :: 0 <= i < |ps| ==> ps[i].id != id) ==> WithoutProject(ps, id) == ps
  {
    FilterIsSubsequence(ps, HasOtherId(id));
    var r := WithoutProject(ps, id);
    FilterMultiset(ps, HasOtherId(id));
    forall x: ProjectListItem ensures multiset(r)[x] == if x.id == id then 0 else multiset(ps)[x] {
      assert HasOtherId(id)(x) == (x.id != id);
    }
    forall i | 0 <= i < |r| ensures r[i].id != id {
      assert HasOtherId(id)(r[i]);
    }
    if forall i :: 0 <= i < |ps| ==> ps[i].id != id {
      forall i | 0 <= i < |ps| ensures HasOtherId(id)(ps[i]) {
      }
      FilterKeepsAll(ps, HasOtherId(id));
    }
  }

  /** Searching and deleting commute: the list shown after a delete is the shown list without that project. */
  lemma DeleteThenSearch(ps: seq<ProjectListItem>, id: string, query: string)
    ensures FilteredProjects(WithoutProject(ps, id), query) == WithoutProject(FilteredProjects(ps, query), id)
  {
    var both := (p: ProjectListItem) => p.id != id && Matches(query, p);
    FilterTwice(ps, HasOtherId(id), MatchesQuery(query), both);
    FilterTwice(ps, MatchesQuery(query), HasOtherId(id), both);
  }

  // ---------------------------------------------------------------------------
  // The page object
  // ---------------------------------------------------------------------------

  class HomePage {
    var projects: seq<ProjectListItem>
    var isLoading: bool
    var searchQuery: string
    /** The id whose delete button is waiting for confirmation. */
    var deleteConfirm: Option<string>

    /** The rows on screen. */
    function Visible(): seq<ProjectListItem>
      reads this
    {
      FilteredProjects(projects, searchQuery)
    }

    constructor ()
      ensures projects == [] && isLoading && searchQuery == "" && deleteConfirm == None
    {
      projects, isLoading, searchQuery, deleteConfirm := [], true, "", None;
    }

    /** The start of `loadProjects`. */
    method LoadProjects()
      modifies this
      ensures isLoading
      ensures projects == old(projects) && searchQuery == old(searchQuery) && deleteConfirm == old(deleteConfirm)
    {
      isLoading := true;
    }

    /** The end of `loadProjects`: a returned list replaces the old one, a failure keeps it. */
    method ProjectsLoaded(result: Option<seq<ProjectListItem>>)
      modifies this
      ensures !isLoading
      ensures projects == (if result.Some? then result.value else old(projects))
      ensures searchQuery == old(searchQuery) && deleteConfirm == old(deleteConfirm)
    {
      if result.Some? {
        projects := result.value;
      }
      isLoading := false;
    }

    method SetSearchQuery(query: string)
      modifies this
      ensures searchQuery == query && Visible() == FilteredProjects(projects, query)
      ensures projects == old(projects) && isLoading == old(isLoading) && deleteConfirm == old(deleteConfirm)
    {
      searchQuery := query;
    }

    /** The trash button: ask to confirm deleting `id`. */
    method AskDelete(id: string)
      modifies this
      ensures deleteConfirm == Some(id)
      ensures projects == old(projects) && isLoading == old(isLoading) && searchQuery == old(searchQuery)
    {
      deleteConfirm := Some(id);
    }

    /** The cancel button of the confirmation. */
    method CancelDelete()
      modifies this
      ensures deleteConfirm == None
      ensures projects == old(projects) && isLoading == old(isLoading) && searchQuery == old(searchQuery)
    {
      deleteConfirm := None;
    }

    /** `handleDelete`, once the server has answered `success`: the project leaves the list only on success; the confirmation closes either way. */
    method HandleDelete(id: string, success: bool)
      modifies this
      ensures projects == (if success then WithoutProject(old(projects), id) else old(projects))
      ensures deleteConfirm == None
      ensures isLoading == old(isLoading) && searchQuery == old(searchQuery)
      ensures Visible() == (if success then WithoutProject(old(Visible()), id) else old(Visible()))
    {
      if success {
        DeleteThenSearch(projects, id, searchQuery);
        projects := WithoutProject(projects, id);
      }
      deleteConfirm := None;
    }
  }
}
