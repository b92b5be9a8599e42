/** The complaints tab of CompllaintSectionContent.swift: the status picker and
    its filter, what the scroll view shows, the card and the detail sheet drawn
    for a complaint, and the refresh the tab runs on appearing. */
module ComplaintSection {
  import opened Swift
  import opened Models
  import Transitions
  import opened Store
  import opened AdminDashboard

  /** The picker opens on "In Progress". */
  const DefaultSelection := "In Progress"

  /** The picker rows, each a (title shown, tag selected) pair, in menu order. */
  const PickerOptions: seq<(string, string)> := [
    ("All", "All"),
    ("Unassigned", "Submitted"),
    ("Declined", "Rejected"),
    ("In Progress", "In Progress"),
    ("Under Review", "Under Review")
  ]

  /** The tag a picker title selects, if the menu has that title. */
  function TagOf(title: string): (tag: Option<string>)
    ensures tag.Some? ==> (title, tag.value) in PickerOptions
    ensures tag.None? ==> forall i :: 0 <= i < |PickerOptions| ==> PickerOptions[i].0 != title
  {
    if title == "All" then Some("All")
    else if title == "Unassigned" then Some("Submitted")
    else if title == "Declined" then Some("Rejected")
    else if title == "In Progress" then Some("In Progress")
    else if title == "Under Review" then Some("Under Review")
    else None
  }

  /** The menu's tags are distinct, the opening selection is one of them, and
      every tag other than "All" is a status of the wire contract. "Assigned" and
      "Resolved" cannot be selected. */
  lemma PickerTags()
    ensures forall i, j :: 0 <= i < j < |PickerOptions| ==> PickerOptions[i].1 != PickerOptions[j].1
    ensures exists i :: 0 <= i < |PickerOptions| && PickerOptions[i].1 == DefaultSelection
    ensures forall i :: 1 <= i < |PickerOptions| ==> PickerOptions[i].1 in Statuses
    ensures forall i :: 0 <= i < |PickerOptions| ==> PickerOptions[i].1 != "Assigned" && PickerOptions[i].1 != "Resolved"
  {
    assert PickerOptions[3].1 == DefaultSelection;
  }

  /** Every picker title names the badge its complaints are shown with, except
      "Declined", whose complaints are badged "Rejected". */
  lemma PickerTitlesAgainstBadges()
    ensures forall i :: 1 <= i < |PickerOptions| ==>
      (StatusBadge(PickerOptions[i].1).text == PickerOptions[i].0 <==> PickerOptions[i].0 != "Declined")
    ensures StatusBadge(TagOf("Declined").value).text == "Rejected"
  {
  }

  /** The filter closure: "All" accepts everything, any other selection requires
      an exact, case-sensitive status match. */
  predicate IsShown(c: Complaint, selection: string): (shown: bool)
    ensures shown <==> PickerAccepts(selection, c.status)
    ensures shown && selection != "All" ==> StatusBadge(c.status) == StatusBadge(selection)
  {
    selection == "All" || c.status == selection
  }

  /** The complaints listed under the current selection. */
  function ShownComplaints(complaints: seq<Complaint>, selection: string): (shown: seq<Complaint>)
    ensures IsSubsequence(shown, complaints)
    ensures forall c :: c in shown <==> c in complaints && IsShown(c, selection)
    ensures forall c :: multiset(shown)[c] == if IsShown(c, selection) then multiset(complaints)[c] else 0
  {
    var p := (c: Complaint) => IsShown(c, selection);
    forall c ensures multiset(Filter(complaints, p))[c] == if p(c) then multiset(complaints)[c] else 0 {
      FilterCounts(complaints, p, c);
    }
    FilterIsSubsequence(complaints, p);
    forall c | c in complaints && p(c) ensures c in Filter(complaints, p) {
      FilterKeepsEverySatisfier(complaints, p, c);
    }
    Filter(complaints, p)
  }

  /** Selecting "All" lists every complaint, in store order. */
  lemma AllShowsEverything(complaints: seq<Complaint>)
    ensures ShownComplaints(complaints, "All") == complaints
  {
    FilterKeepsAll(complaints, (c: Complaint) => IsShown(c, "All"));
  }

  /** Filtering the listed complaints again changes nothing. */
  lemma FilteringTwiceIsFilteringOnce(complaints: seq<Complaint>, selection: string)
    ensures var shown := ShownComplaints(complaints, selection);
      ShownComplaints(shown, selection) == shown
  {
    FilterIdempotent(complaints, (c: Complaint) => IsShown(c, selection));
  }

  /** On opening, only orange "In Progress" badges are listed; under
      "Unassigned" only yellow "Unassigned" badges are. */
  lemma ShownBadges(complaints: seq<Complaint>)
    ensures forall c :: c in ShownComplaints(complaints, DefaultSelection) ==>
      StatusBadge(c.status) == Badge("In Progress", Orange)
    ensures forall c :: c in ShownComplaints(complaints, TagOf("Unassigned").value) ==>
      StatusBadge(c.status) == Badge("Unassigned", Yellow)
  {
  }

  /** What the scroll view holds: the placeholder text, or a stack of cards
      (possibly empty). */
  datatype Content = NoComplaintsPlaceholder | Cards(complaints: seq<Complaint>)

  /** The placeholder appears exactly when the store holds no complaints; a
      non-empty store filtered down to nothing shows an empty stack instead. */
  function SectionContent(complaints: seq<Complaint>, selection: string): (content: Content)
    ensures content.NoComplaintsPlaceholder? <==> complaints == []
    ensures content.Cards? ==> content.complaints == ShownComplaints(complaints, selection)
  {
    if complaints != [] then Cards(ShownComplaints(complaints, selection))
    else NoComplaintsPlaceholder
  }

  /** The card headline: "#C", the id, " - " and the subject. */
  function CardTitle(c: Complaint): (title: string)
    ensures |title| >= 2 + |c.subject|
    ensures title[..2] == "#C"
    ensures title[|title| - |c.subject|..] == c.subject
  {
    "#C" + IntToString(c.complaintId) + " - " + c.subject
  }

  /** A headline names its complaint's id and subject: the id's digits stop at
      the first space, so two complaints with the same headline have the same id
      and the same subject. */
  lemma CardTitleIdentifiesComplaint(a: Complaint, b: Complaint)
    requires CardTitle(a) == CardTitle(b)
    ensures a.complaintId == b.complaintId && a.subject == b.subject
  {
    var x, x' := IntToString(a.complaintId), IntToString(b.complaintId);
    var y, y' := "- " + a.subject, "- " + b.subject;
    CardTitleSplits(a);
    CardTitleSplits(b);
    SeparatedJoinInjective(x, y, x', y', ' ');
    assert a.subject == y[2..] == y'[2..] == b.subject;
    IntToStringInjective(a.complaintId, b.complaintId);
  }

  /** After "#C", a headline is the interpolated id, a space, then "- " and the
      subject; the id holds no space. */
  lemma CardTitleSplits(c: Complaint)
    ensures CardTitle(c)[2..] == IntToString(c.complaintId) + [' '] + ("- " + c.subject)
    ensures ' ' !in IntToString(c.complaintId)
  {
    var x := IntToString(c.complaintId);
    assert CardTitle(c) == "#C" + (x + [' '] + ("- " + c.subject));
  }

  /** What a complaint card draws. */
  datatype CardView = CardView(title: string, submittedBy: string, priority: Badge, status: Badge)

  function Card(c: Complaint): (card: CardView)
    ensures card.title == CardTitle(c)
    ensures card.submittedBy == "Submitted by " + c.email
    ensures card.priority == PriorityBadge(c.priority)
    ensures card.status == StatusBadge(c.status)
  {
    CardView(CardTitle(c), "Submitted by " + c.email, PriorityBadge(c.priority), StatusBadge(c.status))
  }

  /** A card identifies what it shows: equal cards mean equal id, subject,
      submitter, priority and status. */
  lemma CardIdentifiesComplaint(a: Complaint, b: Complaint)
    requires Card(a) == Card(b)
    ensures a.complaintId == b.complaintId && a.subject == b.subject && a.email == b.email
    ensures a.priority == b.priority && a.status == b.status
  {
    CardTitleIdentifiesComplaint(a, b);
    assert a.email == Card(a).submittedBy[13..];
    assert b.email == Card(b).submittedBy[13..];
    StatusBadgeIdentifiesStatus(a.status, b.status);
  }

  /** The "Date of issuance" row: the first eleven characters of `created_at`. */
  function IssuanceDate(createdAt: string): (date: string)
    ensures |date| == Min(11, |createdAt|)
    ensures date <= createdAt
  {
    Prefix(createdAt, 11)
  }

  /** On a "yyyy-MM-dd HH:mm:ss" timestamp, as the fixtures carry, the eleven
      characters are the date and the separator after it; on an ISO-8601 one the
      separator is the "T". */
  lemma IssuanceOfTimestamps()
    ensures IssuanceDate(Transitions.PreviewComplaints[0].createdAt) == "2025-04-26 "
    ensures IssuanceDate("2024-03-15T10:30:00.000Z") == "2024-03-15T"
  {
  }

  /** The "Location" row: hostel, a comma and a space, room. */
  function Location(c: Complaint): (location: string)
    ensures |location| == |c.hostelNo| + 2 + |c.roomNo|
    ensures location[..|c.hostelNo|] == c.hostelNo
    ensures location[|c.hostelNo|..|c.hostelNo| + 2] == ", "
    ensures location[|c.hostelNo| + 2..] == c.roomNo
  {
    c.hostelNo + ", " + c.roomNo
  }

  /** When hostel names hold no comma the location names one hostel and one room. */
  lemma LocationIdentifiesRoom(a: Complaint, b: Complaint)
    requires ',' !in a.hostelNo && ',' !in b.hostelNo
    requires Location(a) == Location(b)
    ensures a.hostelNo == b.hostelNo && a.roomNo == b.roomNo
  {
    var y, y' := " " + a.roomNo, " " + b.roomNo;
    assert Location(a) == a.hostelNo + [','] + y;
    assert Location(b) == b.hostelNo + [','] + y';
    SeparatedJoinInjective(a.hostelNo, y, b.hostelNo, y', ',');
    assert a.roomNo == y[1..] == y'[1..] == b.roomNo;
  }

  /** What the detail sheet of ComplaintView draws. */
  datatype DetailView = DetailView(
    navigationTitle: string,
    description: string,
    status: Badge,
    issuance: string,
    email: string,
    contact: string,
    location: string,
    priority: Badge
  )

  /** The sheet opened by a card's Details button. */
  function Detail(c: Complaint): (view: DetailView)
    ensures view.navigationTitle == "Complaint #" + IntToString(c.complaintId)
    ensures view.description == c.description
    ensures view.status == StatusBadge(c.status) && view.priority == PriorityBadge(c.priority)
    ensures view.issuance == IssuanceDate(c.createdAt)
    ensures view.email == "Email: " + c.email && view.contact == "Contact: " + c.phoneNo
    ensures view.location == Location(c)
  {
    DetailView("Complaint #" + IntToString(c.complaintId), c.description, StatusBadge(c.status),
               IssuanceDate(c.createdAt), "Email: " + c.email, "Contact: " + c.phoneNo,
               Location(c), PriorityBadge(c.priority))
  }

  /** With comma-free hostel names, a detail sheet identifies what it shows:
      equal sheets mean equal id, description, e-mail, phone, hostel, room,
      status and priority. */
  lemma DetailIdentifiesComplaint(a: Complaint, b: Complaint)
    requires ',' !in a.hostelNo && ',' !in b.hostelNo
    requires Detail(a) == Detail(b)
    ensures a.complaintId == b.complaintId && a.description == b.description
    ensures a.email == b.email && a.phoneNo == b.phoneNo
    ensures a.hostelNo == b.hostelNo && a.roomNo == b.roomNo
    ensures a.status == b.status && a.priority == b.priority
  {
    var v, w := Detail(a), Detail(b);
    assert v.navigationTitle[11..] == IntToString(a.complaintId);
    assert w.navigationTitle[11..] == IntToString(b.complaintId);
    IntToStringInjective(a.complaintId, b.complaintId);
    assert a.email == v.email[7..] && b.email == w.email[7..];
    assert a.phoneNo == v.contact[9..] && b.phoneNo == w.contact[9..];
    LocationIdentifiesRoom(a, b);
    StatusBadgeIdentifiesStatus(a.status, b.status);
  }

  /** refreshData: in a preview the fixture complaints are installed; otherwise
      the complaints are fetched. The engineers are never touched. */
  method RefreshData(store: AuthStore, isPreview: bool, complaints: Fetched<Complaint>)
    requires store.Valid()
    modifies store
    ensures store.Valid()
    ensures store.engineers == old(store.engineers)
    ensures isPreview ==>
      store.State() == old(store.State()).(complaints := Transitions.PreviewComplaints)
    ensures !isPreview ==>
      store.State() == Transitions.FetchComplaints(old(store.State()), complaints)
  {
    if isPreview {
      store.ComplaintPreviewData();
    } else {
      store.GetAllComplainsForAdmin(complaints);
    }
  }
}
