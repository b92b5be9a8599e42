/** The profile figures EngineerDetailView.swift derives from an engineer's id,
    name and status. Swift's `%` is modelled by Swift.Rem; where a negative
    remainder would index an array out of range (a trap), the precondition
    excludes exactly those ids. */
module EngineerDetail {
  import opened Swift
  import opened Models

  const AllSkills: seq<string> := [
    "Swift", "SwiftUI", "UIKit", "Objective-C", "Kotlin",
    "Java", "Python", "JavaScript", "TypeScript", "React",
    "Angular", "Vue", "Node.js", "C#", "C++",
    "AWS", "Azure", "GCP", "Docker", "Kubernetes",
    "CI/CD", "Git", "SQL", "NoSQL", "Agile"
  ]

  const Levels: seq<string> := ["Junior", "Mid-level", "Senior", "Principal", "Staff"]

  const Departments: seq<string> :=
    ["Engineering", "Product Development", "R&D", "Infrastructure", "Mobile Applications"]

  const ProjectNames: seq<string> := [
    "Atlas", "Phoenix", "Horizon", "Meridian", "Quantum",
    "Nova", "Titan", "Olympus", "Voyager", "Nebula"
  ]

  const ProjectDescriptions: seq<string> := [
    "feature development", "UI enhancements", "performance optimization",
    "backend integration", "system architecture", "security improvements",
    "cross-platform compatibility", "API development", "data migration",
    "cloud infrastructure"
  ]

  // ---------------------------------------------------------------------------
  // Status and workload colours
  // ---------------------------------------------------------------------------

  /** The status badge colour, chosen on the lower-cased status. */
  function StatusColor(status: string): (c: Color)
    ensures c == Orange || c == Green || c == Blue
  {
    var s := Lowercased(status);
    if s == "busy" then Orange else if s == "available" then Green else Blue
  }

  /** The status colour ignores case: every spelling of "busy" is orange, every
      spelling of "available" is green, and every other status is blue. */
  lemma StatusColorIgnoresCase(status: string)
    ensures StatusColor(status) == Orange <==> EqualsIgnoringCase(status, "busy")
    ensures StatusColor(status) == Green <==> EqualsIgnoringCase(status, "available")
    ensures StatusColor(status) == Blue <==>
      !EqualsIgnoringCase(status, "busy") && !EqualsIgnoringCase(status, "available")
  {
    assert Lowercased("busy") == "busy";
    assert Lowercased("available") == "available";
    LowercasedEqualIffIgnoringCase(status, "busy");
    LowercasedEqualIffIgnoringCase(status, "available");
  }

  /** The workload label; the workload is ten times the id, banded at 30 and 70. */
  function WorkloadStatus(id: int): (r: string)
    ensures r == "Low Workload" <==> id <= 2
    ensures r == "Moderate Workload" <==> 3 <= id <= 6
    ensures r == "High Workload" <==> 7 <= id
  {
    var workload := id * 10;
    if workload < 30 then "Low Workload"
    else if workload < 70 then "Moderate Workload"
    else "High Workload"
  }

  /** The workload colour, on the same bands as WorkloadStatus. */
  function WorkloadColor(id: int): (c: Color)
    ensures c == Green <==> id <= 2
    ensures c == Orange <==> 3 <= id <= 6
    ensures c == Red <==> 7 <= id
  {
    var workload := id * 10;
    if workload < 30 then Green
    else if workload < 70 then Orange
    else Red
  }

  // ---------------------------------------------------------------------------
  // Workload figures and project cards
  // ---------------------------------------------------------------------------

  /** The utilisation percentage: ten times the id, capped at 100. */
  function Utilization(id: int): (u: int)
    ensures u <= 100
    ensures id >= 0 ==> 0 <= u
    ensures u == 100 <==> id >= 10
    ensures id < 10 ==> u == 10 * id
  {
    Min(id * 10, 100)
  }

  /** The number of current projects. */
  function ProjectCount(id: int): (n: int)
    ensures id >= 0 ==> n == id % 3 + 1 && 1 <= n <= 3
    ensures id < 0 ==> n == 1 - (-id) % 3 && -1 <= n <= 1
  {
    Rem(id, 3) + 1
  }

  datatype ProjectCard = ProjectCard(name: string, description: string, progress: int)

  /** The card drawn at position `index` of the projects list. */
  function ProjectCardAt(index: nat): (card: ProjectCard)
    ensures |card.name| > 8 && card.name[..8] == "Project "
    ensures card.name[8..] == ProjectNames[index % |ProjectNames|]
    ensures |card.description| > 11 && card.description[..11] == "Working on "
    ensures card.description[11..] == ProjectDescriptions[index % |ProjectDescriptions|]
    ensures card.progress == 30 + 20 * index
  {
    ProjectCard("Project " + ProjectNames[index % |ProjectNames|],
                "Working on " + ProjectDescriptions[index % |ProjectDescriptions|],
                30 + index * 20)
  }

  /** The first three project cards, the most an engineer has, carry different names. */
  lemma ProjectCardNamesDiffer(i: nat, j: nat)
    requires i < j < 3
    ensures ProjectCardAt(i).name != ProjectCardAt(j).name
  {
    assert i % |ProjectNames| == i && j % |ProjectNames| == j;
    var a, b := ProjectCardAt(i).name, ProjectCardAt(j).name;
    assert ProjectNames[i] != ProjectNames[j];
    assert a[8..] == ProjectNames[i] && b[8..] == ProjectNames[j];
  }

  /** The project cards: one per project, with distinct names and progress
      rising from 30 in steps of 20, never above 70. */
  function ProjectCards(id: int): (cards: seq<ProjectCard>)
    requires ProjectCount(id) >= 0  // a range 0..<n with n < 0 traps
    ensures |cards| == ProjectCount(id)
    ensures forall i :: 0 <= i < |cards| ==> cards[i].name == "Project " + ProjectNames[i]
    ensures forall i :: 0 <= i < |cards| ==> cards[i].description == "Working on " + ProjectDescriptions[i]
    ensures forall i :: 0 <= i < |cards| ==> cards[i].progress == 30 + 20 * i
    ensures forall i :: 0 <= i < |cards| ==> 30 <= cards[i].progress <= 70
    ensures forall i, j :: 0 <= i < j < |cards| ==>
      cards[i].progress < cards[j].progress && cards[i].name != cards[j].name
  {
    var cards := seq(ProjectCount(id), i requires 0 <= i => ProjectCardAt(i));
    assert |ProjectNames| == |ProjectDescriptions| == 10;
    forall i | 0 <= i < |cards|
      ensures cards[i] == ProjectCard("Project " + ProjectNames[i], "Working on " + ProjectDescriptions[i], 30 + 20 * i)
    {
      assert i % 10 == i;
    }
    forall i, j | 0 <= i < j < |cards| ensures cards[i].name != cards[j].name {
      ProjectCardNamesDiffer(i, j);
    }
    cards
  }

  /** The three info boxes under the workload bar: tasks, projects, utilisation.
      The projects box counts exactly the project cards. */
  function InfoBoxes(id: int): (boxes: seq<(string, string)>)
    ensures |boxes| == 3
    ensures boxes[0].0 == "Tasks" && boxes[1].0 == "Projects" && boxes[2].0 == "Utilization"
    ensures boxes[0].1 == IntToString(id + 3)
    ensures boxes[1].1 == IntToString(ProjectCount(id))
    ensures ProjectCount(id) >= 0 ==> boxes[1].1 == IntToString(|ProjectCards(id)|)
    ensures id >= 0 ==> boxes[1].1 == "1" || boxes[1].1 == "2" || boxes[1].1 == "3"
    ensures boxes[2].1 == IntToString(Utilization(id)) + "%"
  {
    [("Tasks", IntToString(id + 3)),
     ("Projects", IntToString(ProjectCount(id))),
     ("Utilization", IntToString(Utilization(id)) + "%")]
  }

  // ---------------------------------------------------------------------------
  // Skills
  // ---------------------------------------------------------------------------

  /** The skill indices getSkills visits are all in range: always for the ids
      the backend issues, and for a negative id only when every remainder it
      takes is zero (otherwise the array access traps). */
  predicate SkillIndicesInRange(id: int)
  {
    forall i :: 0 <= i < 4 + Rem(id, 4) ==> SkillIndex(id, i) >= 0
  }

  /** The index into AllSkills of the `i`-th picked skill. */
  function SkillIndex(id: int, i: int): (index: int)
    ensures index < |AllSkills|
    ensures id * 3 + i >= 0 ==> index == (id * 3 + i) % |AllSkills|
  {
    Rem(id * 3 + i, |AllSkills|)
  }

  /** getSkills: 4 to 7 skills picked from AllSkills by the id, then the
      specialization if it is not empty and not already listed. */
  method GetSkills(e: Engineer) returns (skills: seq<string>)
    requires SkillIndicesInRange(e.engineerId)
    ensures var base := 4 + Rem(e.engineerId, 4);
      && (|skills| == base || |skills| == base + 1)
      && (forall i :: 0 <= i < base ==> skills[i] == AllSkills[SkillIndex(e.engineerId, i)])
      && (|skills| == base + 1 <==> e.specialization != "" && e.specialization !in skills[..base])
      && (|skills| == base + 1 ==> skills[base] == e.specialization)
    ensures e.engineerId >= 0 ==> 4 <= |skills| <= 8
    ensures e.specialization != "" ==> e.specialization in skills
  {
    var id := e.engineerId;
    skills := [];
    var numSkills := 4 + Rem(id, 4);
    for i := 0 to numSkills
      invariant |skills| == i
      invariant forall k :: 0 <= k < i ==> skills[k] == AllSkills[SkillIndex(id, k)]
    {
      var index := SkillIndex(id, i);
      skills := skills + [AllSkills[index]];
    }
    if e.specialization !in skills && e.specialization != "" {
      skills := skills + [e.specialization];
    }
  }

  // ---------------------------------------------------------------------------
  // Level, department, availability
  // ---------------------------------------------------------------------------

  /** The experience level; the `min` clamp never changes the index. */
  function ExperienceLevel(id: int): (level: string)
    requires Rem(id, 5) >= 0  // a negative remainder indexes the table out of range
    ensures level in Levels
    ensures id >= 0 ==> level == Levels[id % 5]
    ensures id < 0 ==> level == "Junior"
  {
    Levels[Min(Rem(id, |Levels|), |Levels| - 1)]
  }

  /** The department; the `min` clamp never changes the index. */
  function Department(id: int): (department: string)
    requires Rem(id, 5) >= 0  // a negative remainder indexes the table out of range
    ensures department in Departments
    ensures id >= 0 ==> department == Departments[id % 5]
    ensures id < 0 ==> department == "Engineering"
  {
    Departments[Min(Rem(id, |Departments|), |Departments| - 1)]
  }

  /** The weeks until a busy engineer is free: 2 to 4 for the ids the backend
      issues, 0 to 2 for negative ones. */
  function WeeksUntilAvailable(id: int): (weeks: int)
    ensures id >= 0 ==> weeks == 2 + id % 3 && 2 <= weeks <= 4
    ensures id < 0 ==> weeks == 2 - (-id) % 3 && 0 <= weeks <= 2
  {
    2 + Rem(id, 3)
  }

  /** getAvailability: "Available now" exactly when the status is not busy in any
      letter case; otherwise the weeks until free. */
  function Availability(e: Engineer): (text: string)
    ensures text == "Available now" <==> Lowercased(e.status) != "busy"
    ensures Lowercased(e.status) == "busy" ==>
      text == "Available in " + IntToString(WeeksUntilAvailable(e.engineerId)) + " weeks"
  {
    if Lowercased(e.status) == "busy" then
      var text := "Available in " + IntToString(WeeksUntilAvailable(e.engineerId)) + " weeks";
      assert text[10] == 'i' && "Available now"[10] == 'n';
      text
    else
      "Available now"
  }

  // ---------------------------------------------------------------------------
  // Contact rows and avatar
  // ---------------------------------------------------------------------------

  /** `replacingOccurrences(of: " ", with: ".")`. */
  function SpacesToDots(s: string): (r: string)
    ensures |r| == |s|
    ensures forall i :: 0 <= i < |s| ==> r[i] == if s[i] == ' ' then '.' else s[i]
  {
    seq(|s|, i requires 0 <= i < |s| => if s[i] == ' ' then '.' else s[i])
  }

  /** The displayed e-mail: the name in lower case with dots for spaces, at
      company.com. Its local part holds no space and no upper-case letter. */
  function ContactEmail(name: string): (email: string)
    ensures |email| == |name| + 12
    ensures email[|name|..] == "@company.com"
    ensures forall i :: 0 <= i < |name| ==> email[i] != ' ' && !IsUpperAscii(email[i])
    ensures forall i :: 0 <= i < |name| ==> name[i] != ' ' ==> email[i] == LowerChar(name[i])
    ensures forall i :: 0 <= i < |name| ==> name[i] == ' ' ==> email[i] == '.'
  {
    SpacesToDots(Lowercased(name)) + "@company.com"
  }

  const PhonePrefix := "+1 (555) "

  /** The displayed phone number, built from the id. For a non-negative id,
      everything after the prefix is a digit except a single dash. */
  function ContactPhone(id: int): (phone: string)
    ensures |phone| > |PhonePrefix| && phone[..|PhonePrefix|] == PhonePrefix
    ensures id >= 0 ==> forall k :: |PhonePrefix| <= k < |phone| ==> IsDigit(phone[k]) || phone[k] == '-'
    ensures id >= 0 ==> multiset(phone[|PhonePrefix|..])['-'] == 1
  {
    var x, y := IntToString(100 + id * 111), IntToString(1000 + id * 111);
    var tail := x + "-" + y;
    if id >= 0 then
      DigitsAroundDash(x, y);
      PhonePrefix + tail
    else
      PhonePrefix + tail
  }

  /** Two runs of digits joined by a dash: digits and dashes only, one dash. */
  lemma DigitsAroundDash(x: string, y: string)
    requires AllDigits(x) && AllDigits(y)
    ensures forall k :: 0 <= k < |x + "-" + y| ==> IsDigit((x + "-" + y)[k]) || (x + "-" + y)[k] == '-'
    ensures multiset(x + "-" + y)['-'] == 1
  {
    assert '-' !in multiset(x) && '-' !in multiset(y);
    assert multiset(x + "-" + y) == multiset(x) + multiset{'-'} + multiset(y);
  }

  /** After the prefix, a phone number is the first number, a dash and the second
      number, for every id; for a non-negative id the first number holds no dash. */
  lemma ContactPhoneSplits(id: int)
    ensures ContactPhone(id)[|PhonePrefix|..]
         == IntToString(100 + id * 111) + ['-'] + IntToString(1000 + id * 111)
    ensures id >= 0 ==> '-' !in IntToString(100 + id * 111)
  {
    var x, y := IntToString(100 + id * 111), IntToString(1000 + id * 111);
    assert ContactPhone(id) == PhonePrefix + (x + ['-'] + y);
    if id >= 0 {
      assert AllDigits(x);
    }
  }

  /** Two engineers with different non-negative ids are shown different phone numbers. */
  lemma ContactPhoneIdentifiesEngineer(a: int, b: int)
    requires a >= 0 && b >= 0
    requires ContactPhone(a) == ContactPhone(b)
    ensures a == b
  {
    ContactPhoneSplits(a);
    ContactPhoneSplits(b);
    SeparatedJoinInjective(IntToString(100 + a * 111), IntToString(1000 + a * 111),
                           IntToString(100 + b * 111), IntToString(1000 + b * 111), '-');
    IntToStringInjective(100 + a * 111, 100 + b * 111);
  }

  /** The avatar letter: the first character of the capitalised name. */
  function AvatarInitial(name: string): (r: string)
    ensures |r| == Min(1, |name|)
    ensures forall i :: 0 <= i < |r| ==> !IsLowerAscii(r[i])
    ensures r != "" ==> LowerChar(r[0]) == LowerChar(name[0])
  {
    if name == "" then "" else [UpperChar(name[0])]
  }
}
