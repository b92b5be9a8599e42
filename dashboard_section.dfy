/** The home tab of DashboardSectionContent.swift: the first engineer and the
    three first complaints, their placeholders, the engineer card with its own
    status colour, and the tab's own copies of the two badge helpers. */
module DashboardSection {
  import opened Swift
  import opened Models
  import EngineerDetail
  import EngineerSection
  import ComplaintSection
  import AdminDashboard

  /** A section of the tab: the placeholder text, or the rows drawn. */
  datatype Panel<T> = Placeholder | Rows(items: seq<T>)

  /** "Available Engineers": the first engineer of the store, or the placeholder
      when the store holds none. */
  function EngineerPanel(engineers: seq<Engineer>): (panel: Panel<Engineer>)
    ensures panel.Placeholder? <==> engineers == []
    ensures panel.Rows? ==> panel.items == [engineers[0]]
  {
    if engineers != [] then Rows(Prefix(engineers, 1)) else Placeholder
  }

  /** "Recent Complaints": the first three complaints of the store in store
      order (all of them when there are fewer), or the placeholder when the store
      holds none. */
  function ComplaintPanel(complaints: seq<Complaint>): (panel: Panel<Complaint>)
    ensures panel.Placeholder? <==> complaints == []
    ensures panel.Rows? ==>
      && 1 <= |panel.items| == Min(3, |complaints|)
      && panel.items == complaints[..|panel.items|]
  {
    if complaints != [] then Rows(Prefix(complaints, 3)) else Placeholder
  }

  /** The dashboard's engineer badge colour: orange exactly for the status
      "Busy", spelled so; green for everything else. */
  function EngineerCardColor(status: string): (c: Color)
    ensures c == Orange <==> status == "Busy"
    ensures c == Green <==> status != "Busy"
  {
    if status == "Busy" then Orange else Green
  }

  /** The dashboard and the engineer profile colour the two wire statuses alike,
      but only the profile ignores case, and only the profile has a third colour. */
  lemma EngineerCardColorAgainstProfile()
    ensures EngineerCardColor("Busy") == EngineerDetail.StatusColor("Busy") == Orange
    ensures EngineerCardColor("Available") == EngineerDetail.StatusColor("Available") == Green
    ensures EngineerCardColor("busy") == Green && EngineerDetail.StatusColor("busy") == Orange
    ensures EngineerCardColor("On Leave") == Green && EngineerDetail.StatusColor("On Leave") == Blue
  {
    assert Lowercased("Busy") == "busy";
    assert Lowercased("busy") == "busy";
    assert Lowercased("Available") == "available";
    assert Lowercased("On Leave") == "on leave";
  }

  /** For every status, the dashboard card and the profile badge agree exactly
      when the status is "Busy" as written or any spelling of "available". */
  lemma EngineerCardColorAgreesWithProfile(status: string)
    ensures EngineerCardColor(status) == EngineerDetail.StatusColor(status) <==>
      status == "Busy" || EqualsIgnoringCase(status, "available")
  {
    EngineerDetail.StatusColorIgnoresCase(status);
    if status == "Busy" {
      assert Lowercased(status) == "busy";
      LowercasedEqualIffIgnoringCase(status, "busy");
    }
  }

  /** What the dashboard's engineer card draws. */
  datatype EngineerRow = EngineerRow(initial: string, name: string, specialization: string,
                                     status: string, color: Color)

  /** The card's avatar letter is the name's first character as written, not
      capitalised, unlike the engineers tab. */
  function EngineerCard(e: Engineer): (row: EngineerRow)
    ensures row.initial == Prefix(e.name, 1)
    ensures row.name == e.name && row.specialization == e.specialization && row.status == e.status
    ensures row.color == EngineerCardColor(e.status)
  {
    EngineerRow(Prefix(e.name, 1), e.name, e.specialization, e.status, EngineerCardColor(e.status))
  }

  /** The two avatar letters agree exactly when the name is empty or does not
      start with a lower-case letter. */
  lemma AvatarInitialsAgainstEngineersTab(e: Engineer)
    ensures EngineerCard(e).initial == EngineerSection.Card(e).initial <==>
      e.name == [] || !IsLowerAscii(e.name[0])
  {
  }

  /** Against the engineers tab's card for the same engineer: the same name,
      specialization and status; the same initial exactly when the name is empty
      or does not start lower-case; the same status colour exactly when the
      status is "Busy" as written or any spelling of "available". */
  lemma EngineerCardAgainstEngineersTab(e: Engineer)
    ensures var row, card := EngineerCard(e), EngineerSection.Card(e);
      && row.name == card.name && row.specialization == card.specialization
      && row.status == card.status
      && (row.initial == card.initial <==> e.name == [] || !IsLowerAscii(e.name[0]))
      && (row.color == card.statusColor <==>
          e.status == "Busy" || EqualsIgnoringCase(e.status, "available"))
  {
    AvatarInitialsAgainstEngineersTab(e);
    EngineerCardColorAgreesWithProfile(e.status);
  }

  /** What the dashboard's complaint card draws: the tab's headline, the
      submitter and the two badges; it has no details button. */
  datatype ComplaintRow = ComplaintRow(title: string, submittedBy: string,
                                       priority: AdminDashboard.Badge, status: AdminDashboard.Badge)

  function ComplaintCard(c: Complaint): (row: ComplaintRow)
    ensures row.title == ComplaintSection.CardTitle(c)
    ensures row.submittedBy == ComplaintSection.Card(c).submittedBy
    ensures row.priority == ComplaintSection.Card(c).priority
    ensures row.status == ComplaintSection.Card(c).status
  {
    ComplaintRow(ComplaintSection.CardTitle(c), "Submitted by " + c.email,
                 AdminDashboard.PriorityBadge(c.priority), AdminDashboard.StatusBadge(c.status))
  }

  /** The tab's own priorityBadge: start from red and repaint for "Low" and
      "Medium". It draws the same badge as the top-level helper. */
  method PriorityBadge(priority: string) returns (b: AdminDashboard.Badge)
    ensures b == AdminDashboard.PriorityBadge(priority)
  {
    var color := Red;
    if priority == "Low" {
      color := Green;
    } else if priority == "Medium" {
      color := Orange;
    }
    b := AdminDashboard.Badge(priority, color);
  }

  /** The tab's own statusBadge: start from the status in red, repaint for each
      known status and relabel "Submitted". It draws the same badge as the
      top-level helper. */
  method StatusBadge(status: string) returns (b: AdminDashboard.Badge)
    ensures b == AdminDashboard.StatusBadge(status)
  {
    var stat := status;
    var color := Red;
    if status == "Assigned" {
      color := Blue;
    } else if status == "In Progress" {
      color := Orange;
    } else if status == "Under Review" {
      color := Purple;
    } else if status == "Resolved" {
      color := Green;
    } else if status == "Submitted" {
      color := Yellow;
      stat := "Unassigned";
    }
    b := AdminDashboard.Badge(stat, color);
  }
}
