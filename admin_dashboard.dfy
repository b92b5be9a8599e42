/** The two badge helpers declared at the top level of AdminDashboard.swift
    and used by every complaint card: the text and colour a priority or a status
    is drawn in. All comparisons are exact and case-sensitive. */
module AdminDashboard {
  import opened Swift

  /** What a badge draws. */
  datatype Badge = Badge(text: string, color: Color)

  /** The six complaint statuses of the wire contract. */
  const Statuses: seq<string> := ["Submitted", "Assigned", "In Progress", "Under Review", "Resolved", "Rejected"]

  /** priorityBadge: the priority as written, green for "Low", orange for
      "Medium" and red for anything else, "High" included. */
  function PriorityBadge(priority: string): (b: Badge)
    ensures b.text == priority
    ensures b.color == Green <==> priority == "Low"
    ensures b.color == Orange <==> priority == "Medium"
    ensures b.color == Red <==> priority != "Low" && priority != "Medium"
  {
    var color := if priority == "Low" then Green else if priority == "Medium" then Orange else Red;
    Badge(priority, color)
  }

  /** statusBadge: every status is shown as written except "Submitted", which is
      shown as "Unassigned"; each known status other than "Rejected" has its own
      colour, and red covers "Rejected" and every unknown status. */
  function StatusBadge(status: string): (b: Badge)
    ensures status != "Submitted" ==> b.text == status
    ensures b.text == "Unassigned" <==> status == "Submitted" || status == "Unassigned"
    ensures b.color == Blue <==> status == "Assigned"
    ensures b.color == Orange <==> status == "In Progress"
    ensures b.color == Purple <==> status == "Under Review"
    ensures b.color == Green <==> status == "Resolved"
    ensures b.color == Yellow <==> status == "Submitted"
    ensures b.color == Red <==>
      status !in {"Assigned", "In Progress", "Under Review", "Resolved", "Submitted"}
  {
    var stat := if status == "Submitted" then "Unassigned" else status;
    var color :=
      if status == "Assigned" then Blue
      else if status == "In Progress" then Orange
      else if status == "Under Review" then Purple
      else if status == "Resolved" then Green
      else if status == "Submitted" then Yellow
      else Red;
    Badge(stat, color)
  }

  /** A status badge names its status: different statuses, wire or not, are
      drawn differently ("Submitted" and "Unassigned" share a label but not a
      colour). */
  lemma StatusBadgeIdentifiesStatus(s: string, t: string)
    requires StatusBadge(s) == StatusBadge(t)
    ensures s == t
  {
  }

  /** The status colours tell the six wire statuses apart, and the labels do too. */
  lemma StatusBadgesDistinguishStatuses(s: string, t: string)
    requires s in Statuses && t in Statuses && s != t
    ensures StatusBadge(s).color != StatusBadge(t).color
    ensures StatusBadge(s).text != StatusBadge(t).text
  {
  }
}
