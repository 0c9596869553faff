/** The list logic of the technical reviews page: the search, review-type, project and
    manager filters over the enriched reviews, the newest-first order, and the filter panel's
    state with its manager toggle and its reset. */
module TechnicalReviewsPage {
  import opened Outcomes
  import Js
  import Seqs
  import opened Schema

  /** A review as the list endpoint sends it: with its project and its conductor, when found. */
  datatype EnrichedReview = EnrichedReview(review: TechnicalReview, project: Option<Project>, conductor: Option<User>)

  const All := "all"

  datatype ReviewFilters = ReviewFilters(searchTerm: string, typeFilter: string, projectFilter: string, selectedPMs: seq<string>)

  const Cleared := ReviewFilters("", All, All, [])

  /** The search box matches the project's name or the executive summary, ignoring case. */
  predicate MatchesSearch(e: EnrichedReview, term: string) {
    term == ""
    || (e.project.Some? && Js.IncludesIgnoreCase(e.project.value.data.name, term))
    || Js.IncludesIgnoreCase(e.review.data.executiveSummary, term)
  }

  /** The type select compares both sides lower-cased; "all" keeps everything. */
  predicate MatchesType(e: EnrichedReview, typeFilter: string) {
    typeFilter == All || Js.LowerStr(e.review.data.reviewType) == Js.LowerStr(typeFilter)
  }

  predicate MatchesProject(e: EnrichedReview, projectFilter: string) {
    projectFilter == All || Js.IntToString(e.review.data.projectId) == projectFilter
  }

  /** A review without a conductor counts as the name `""`. */
  function ConductorName(e: EnrichedReview): string {
    if e.conductor.Some? then e.conductor.value.name else ""
  }

  predicate MatchesManager(e: EnrichedReview, pms: seq<string>) {
    |pms| == 0 || ConductorName(e) in pms
  }

  predicate Keep(e: EnrichedReview, f: ReviewFilters) {
    MatchesSearch(e, f.searchTerm) && MatchesType(e, f.typeFilter)
    && MatchesProject(e, f.projectFilter) && MatchesManager(e, f.selectedPMs)
  }

  function Keeps(f: ReviewFilters): EnrichedReview -> bool {
    (e: EnrichedReview) => Keep(e, f)
  }

  /** `reviews?.filter(...) || []`. */
  function FilteredReviews(reviews: Option<seq<EnrichedReview>>, f: ReviewFilters): (r: seq<EnrichedReview>)
    ensures reviews.None? ==> r == []
    ensures reviews.Some? ==> forall e :: e in r <==> e in reviews.value && Keep(e, f)
  {
    if reviews.None? then [] else Seqs.Filter(reviews.value, Keeps(f))
  }

  function CreatedAt(e: EnrichedReview): int { e.review.createdAt }

  /** `filteredReviews.sort(newest first)`. */
  function SortedReviews(reviews: Option<seq<EnrichedReview>>, f: ReviewFilters): seq<EnrichedReview> {
    Seqs.SortDesc(FilteredReviews(reviews, f), CreatedAt)
  }

  /** The list shown: exactly the reviews the filters keep, each as often as it was fetched,
      newest first, and reviews created at the same instant in the order they came. */
  lemma {:induction false} SortedReviewsFacts(reviews: seq<EnrichedReview>, f: ReviewFilters, t: int)
    ensures var r := SortedReviews(Some(reviews), f);
            multiset(r) == multiset(Seqs.Filter(reviews, Keeps(f)))
            && (forall e :: e in r <==> e in reviews && Keep(e, f))
            && Seqs.SortedDesc(r, CreatedAt)
            && Seqs.WithKey(r, CreatedAt, t) == Seqs.WithKey(Seqs.Filter(reviews, Keeps(f)), CreatedAt, t)
  {
    var r := SortedReviews(Some(reviews), f);
    var kept := Seqs.Filter(reviews, Keeps(f));
    Seqs.SortDescSorted(kept, CreatedAt);
    Seqs.SortDescStable(kept, CreatedAt, t);
    forall e ensures e in r <==> e in reviews && Keep(e, f) {
      assert e in r <==> e in multiset(r);
      assert e in kept <==> e in multiset(kept);
    }
  }

  /** With the filters cleared, every fetched review is listed. */
  lemma {:induction false} ClearedKeepsAll(reviews: seq<EnrichedReview>)
    ensures FilteredReviews(Some(reviews), Cleared) == reviews
  {
    Seqs.FilterAll(reviews, Keeps(Cleared));
  }

  /** The type select ignores case on both sides. */
  lemma {:induction false} TypeFilterIgnoresCase(e: EnrichedReview, typeFilter: string)
    requires typeFilter != All && Js.LowerStr(typeFilter) != All
    ensures MatchesType(e, typeFilter) <==> MatchesType(e, Js.LowerStr(typeFilter))
  {
    Js.LowerStrIdempotent(typeFilter);
  }

  /** The filter panel: the `useState` variables of the page's filters. */
  class ReviewFilterPanel {
    var searchTerm: string
    var typeFilter: string
    var projectFilter: string
    var selectedPMs: seq<string>

    function Filters(): ReviewFilters
      reads this
    {
      ReviewFilters(searchTerm, typeFilter, projectFilter, selectedPMs)
    }

    ghost predicate Valid()
      reads this
    {
      Seqs.NoDuplicates(selectedPMs)
    }

    constructor()
      ensures Filters() == Cleared && Valid()
    {
      searchTerm, typeFilter, projectFilter, selectedPMs := "", All, All, [];
    }

    /** `setSearchTerm(e.target.value)`. */
    method SetSearchTerm(term: string)
      modifies this
      ensures Filters() == old(Filters()).(searchTerm := term)
      ensures Valid() <==> old(Valid())
    {
      searchTerm := term;
    }

    /** `setTypeFilter(value)`. */
    method SetTypeFilter(value: string)
      modifies this
      ensures Filters() == old(Filters()).(typeFilter := value)
      ensures Valid() <==> old(Valid())
    {
      typeFilter := value;
    }

    /** `setProjectFilter(value)`. */
    method SetProjectFilter(value: string)
      modifies this
      ensures Filters() == old(Filters()).(projectFilter := value)
      ensures Valid() <==> old(Valid())
    {
      projectFilter := value;
    }

    /** `togglePM`: drop the name if selected, add it at the end otherwise. */
    method TogglePM(pm: string)
      requires Valid()
      modifies this
      ensures Valid()
      ensures Filters() == old(Filters()).(selectedPMs := Seqs.Toggle(old(selectedPMs), pm))
      ensures pm in selectedPMs <==> pm !in old(selectedPMs)
    {
      Seqs.ToggleFlips(selectedPMs, pm);
      Seqs.ToggleKeepsDistinct(selectedPMs, pm);
      selectedPMs := Seqs.Toggle(selectedPMs, pm);
    }

    /** `clearAllFilters`: the search, both selects and the manager selection back to their start. */
    method ClearAllFilters()
      modifies this
      ensures Filters() == Cleared && Valid()
    {
      searchTerm := "";
      typeFilter := All;
      projectFilter := All;
      selectedPMs := [];
    }
  }
}
