/** The engineers tab of EngineerSectionContent.swift: the status and
    specialization filters, what the scroll view shows, the card an engineer is
    drawn as, and the refresh it runs on appearing. */
module EngineerSection {
  import opened Swift
  import opened Models
  import EngineerDetail
  import Transitions
  import opened Store

  /** Both pickers start on "All". */
  const DefaultStatusFilter := "All"
  const DefaultSpecializationFilter := "All"

  const StatusOptions: seq<string> := ["Busy", "Available", "All"]
  const SpecializationOptions: seq<string> := ["Internet", "Furniture", "Plumbing", "Other", "All"]

  /** The filter closure: each picker either accepts everything ("All") or
      requires an exact, case-sensitive match. */
  predicate IsShown(e: Engineer, statusFilter: string, specializationFilter: string): (shown: bool)
    ensures shown <==> PickerAccepts(statusFilter, e.status) && PickerAccepts(specializationFilter, e.specialization)
  {
    && (statusFilter == "All" || e.status == statusFilter)
    && (specializationFilter == "All" || e.specialization == specializationFilter)
  }

  /** The engineers listed under the current filters. */
  function ShownEngineers(engineers: seq<Engineer>, statusFilter: string, specializationFilter: string)
    : (shown: seq<Engineer>)
    ensures IsSubsequence(shown, engineers)
    ensures forall e :: e in shown <==> e in engineers && IsShown(e, statusFilter, specializationFilter)
    ensures forall e ::
              multiset(shown)[e] ==
              if IsShown(e, statusFilter, specializationFilter) then multiset(engineers)[e] else 0
  {
    var p := (e: Engineer) => IsShown(e, statusFilter, specializationFilter);
    forall e ensures multiset(Filter(engineers, p))[e] == if p(e) then multiset(engineers)[e] else 0 {
      FilterCounts(engineers, p, e);
    }
    FilterIsSubsequence(engineers, p);
    forall e | e in engineers && p(e) ensures e in Filter(engineers, p) {
      FilterKeepsEverySatisfier(engineers, p, e);
    }
    Filter(engineers, p)
  }

  /** With both pickers on "All" every engineer is listed, in store order. */
  lemma DefaultFiltersShowEverything(engineers: seq<Engineer>)
    ensures ShownEngineers(engineers, DefaultStatusFilter, DefaultSpecializationFilter) == engineers
  {
    FilterKeepsAll(engineers, (e: Engineer) => IsShown(e, "All", "All"));
  }

  /** Filtering the listed engineers again changes nothing. */
  lemma FilteringTwiceIsFilteringOnce(engineers: seq<Engineer>, statusFilter: string, specializationFilter: string)
    ensures var shown := ShownEngineers(engineers, statusFilter, specializationFilter);
      ShownEngineers(shown, statusFilter, specializationFilter) == shown
  {
    FilterIdempotent(engineers, (e: Engineer) => IsShown(e, statusFilter, specializationFilter));
  }

  /** What the scroll view holds: the placeholder text, or a stack of cards
      (possibly empty). */
  datatype Content = NoEngineersPlaceholder | Cards(engineers: seq<Engineer>)

  /** The placeholder appears exactly when the store holds no engineers; a
      non-empty store filtered down to nothing shows an empty stack instead. */
  function SectionContent(engineers: seq<Engineer>, statusFilter: string, specializationFilter: string)
    : (c: Content)
    ensures c.NoEngineersPlaceholder? <==> engineers == []
    ensures c.Cards? ==> c.engineers == ShownEngineers(engineers, statusFilter, specializationFilter)
  {
    if engineers != [] then Cards(ShownEngineers(engineers, statusFilter, specializationFilter))
    else NoEngineersPlaceholder
  }

  /** What an EngineerCard draws from its engineer. */
  datatype CardView = CardView(
    initial: string,
    name: string,
    specialization: string,
    status: string,
    statusColor: Color,
    workloadColor: Color
  )

  /** An engineer's card: the capitalised initial, name, specialization, the
      status in the profile's case-insensitive colour, and the workload colour
      on the profile's bands. */
  function Card(e: Engineer): (card: CardView)
    ensures card.initial == EngineerDetail.AvatarInitial(e.name)
    ensures card.name == e.name && card.specialization == e.specialization && card.status == e.status
    ensures card.statusColor == Orange <==> EqualsIgnoringCase(e.status, "busy")
    ensures card.statusColor == Green <==> EqualsIgnoringCase(e.status, "available")
    ensures card.statusColor == Blue <==>
      !EqualsIgnoringCase(e.status, "busy") && !EqualsIgnoringCase(e.status, "available")
    ensures card.workloadColor == Green <==> e.engineerId <= 2
    ensures card.workloadColor == Orange <==> 3 <= e.engineerId <= 6
    ensures card.workloadColor == Red <==> e.engineerId >= 7
    ensures card.statusColor == EngineerDetail.StatusColor(e.status)
    ensures card.workloadColor == EngineerDetail.WorkloadColor(e.engineerId)
  {
    EngineerDetail.StatusColorIgnoresCase(e.status);
    CardView(EngineerDetail.AvatarInitial(e.name), e.name, e.specialization, e.status,
             EngineerDetail.StatusColor(e.status), EngineerDetail.WorkloadColor(e.engineerId))
  }

  /** refreshData: in a preview both fixture sets are installed; otherwise the
      engineers are fetched, then the complaints. */
  method RefreshData(store: AuthStore, isPreview: bool,
                     engineers: Fetched<Engineer>, complaints: Fetched<Complaint>)
    requires store.Valid()
    modifies store
    ensures store.Valid()
    ensures isPreview ==> store.State() == old(store.State()).(
      engineers := Transitions.PreviewEngineers, complaints := Transitions.PreviewComplaints)
    ensures !isPreview ==>
      store.State() == Transitions.FetchComplaints(
        Transitions.FetchEngineers(old(store.State()), engineers), complaints)
  {
    if isPreview {
      store.EngineerPreviewData();
      store.ComplaintPreviewData();
    } else {
      store.GetAllEngineersForAdmin(engineers);
      store.GetAllComplainsForAdmin(complaints);
    }
  }
}
