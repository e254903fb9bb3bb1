/**
 * The dashboard page: the care team and the medication schedule, both filtered
 * by the search text; the "Take" button of the schedule; and the flags that
 * show or hide each section.
 */
module Dashboard {
  import opened Strings

  datatype DoseState = Missed | Taken | Upcoming

  /** One row of the schedule. */
  datatype ScheduledDose = ScheduledDose(name: string, qty: string, dosage: string, status: DoseState, time: string)

  /** One member of the care team. */
  datatype Member = Member(name: string, role: string, img: string)

  /** `text.toLowerCase().includes(search.toLowerCase())`. */
  predicate MatchesSearch(text: string, search: string)
  {
    Includes(Lower(text), Lower(search))
  }

  /** An empty search matches every text. */
  lemma EmptySearchMatches(text: string)
    ensures MatchesSearch(text, "")
  {
    assert Lower("") == "";
    IncludesEmpty(Lower(text));
  }

  /** The search ignores case: texts and searches that differ only in ASCII case give the same answer. */
  lemma MatchesSearchIgnoresCase(text: string, text': string, search: string, search': string)
    requires SameIgnoringCase(text, text') && SameIgnoringCase(search, search')
    ensures MatchesSearch(text, search) == MatchesSearch(text', search')
  {
    assert Lower(text) == Lower(text');
    assert Lower(search) == Lower(search');
  }

  predicate MemberMatches(m: Member, search: string)
  {
    MatchesSearch(m.name, search) || MatchesSearch(m.role, search)
  }

  /** `filteredCareTeam`: the members whose name or role contains the search text. */
  function FilteredCareTeam(team: seq<Member>, search: string): (r: seq<Member>)
    ensures |r| <= |team|
    ensures forall m :: m in r <==> m in team && MemberMatches(m, search)
  {
    if team == [] then []
    else if MemberMatches(team[0], search) then [team[0]] + FilteredCareTeam(team[1..], search)
    else FilteredCareTeam(team[1..], search)
  }

  /** Filtering a team that starts with `m`: `m` is kept exactly when its name or role matches. */
  lemma CareTeamCons(m: Member, rest: seq<Member>, search: string)
    ensures FilteredCareTeam([m] + rest, search) ==
      (if MemberMatches(m, search) then [m] else []) + FilteredCareTeam(rest, search)
  {
    var s := [m] + rest;
    assert s[0] == m && s[1..] == rest;
  }

  /** The filtered care team keeps the team's order: filtering a concatenation filters each part. */
  lemma {:induction false} CareTeamKeepsOrder(a: seq<Member>, b: seq<Member>, search: string)
    ensures FilteredCareTeam(a + b, search) == FilteredCareTeam(a, search) + FilteredCareTeam(b, search)
  {
    if a == [] {
      assert a + b == b;
    } else {
      var head := if MemberMatches(a[0], search) then [a[0]] else [];
      assert a == [a[0]] + a[1..];
      assert a + b == [a[0]] + (a[1..] + b);
      calc {
        FilteredCareTeam(a + b, search);
        { CareTeamCons(a[0], a[1..] + b, search); }
        head + FilteredCareTeam(a[1..] + b, search);
        { CareTeamKeepsOrder(a[1..], b, search); }
        head + (FilteredCareTeam(a[1..], search) + FilteredCareTeam(b, search));
        (head + FilteredCareTeam(a[1..], search)) + FilteredCareTeam(b, search);
        { CareTeamCons(a[0], a[1..], search); }
        FilteredCareTeam(a, search) + FilteredCareTeam(b, search);
      }
    }
  }

  /** With an empty search the whole team is listed. */
  lemma {:induction false} CareTeamEmptySearch(team: seq<Member>)
    ensures FilteredCareTeam(team, "") == team
  {
    if team != [] {
      EmptySearchMatches(team[0].name);
      CareTeamEmptySearch(team[1..]);
    }
  }

  /** `filteredMedications`: the rows whose name (and only the name) contains the search text. */
  function FilteredMedications(meds: seq<ScheduledDose>, search: string): (r: seq<ScheduledDose>)
    ensures |r| <= |meds|
  {
    if meds == [] then []
    else if MatchesSearch(meds[0].name, search) then [meds[0]] + FilteredMedications(meds[1..], search)
    else FilteredMedications(meds[1..], search)
  }

  /** A row is shown exactly when it is in the schedule and its name matches. */
  lemma {:induction false} MedicationsShown(meds: seq<ScheduledDose>, search: string, d: ScheduledDose)
    ensures d in FilteredMedications(meds, search) <==> d in meds && MatchesSearch(d.name, search)
  {
    if meds != [] {
      MedicationsShown(meds[1..], search, d);
      assert meds == [meds[0]] + meds[1..];
      MedicationsCons(meds[0], meds[1..], search);
    }
  }

  /** Filtering a schedule that starts with `d`: `d` is kept exactly when its name matches. */
  lemma MedicationsCons(d: ScheduledDose, rest: seq<ScheduledDose>, search: string)
    ensures FilteredMedications([d] + rest, search) ==
      (if MatchesSearch(d.name, search) then [d] else []) + FilteredMedications(rest, search)
  {
    var s := [d] + rest;
    assert s[0] == d && s[1..] == rest;
  }

  /** The filtered schedule keeps the schedule's order. */
  lemma {:induction false} MedicationsKeepOrder(a: seq<ScheduledDose>, b: seq<ScheduledDose>, search: string)
    ensures FilteredMedications(a + b, search) == FilteredMedications(a, search) + FilteredMedications(b, search)
  {
    if a == [] {
      assert a + b == b;
    } else {
      var head := if MatchesSearch(a[0].name, search) then [a[0]] else [];
      assert a == [a[0]] + a[1..];
      assert a + b == [a[0]] + (a[1..] + b);
      calc {
        FilteredMedications(a + b, search);
        { MedicationsCons(a[0], a[1..] + b, search); }
        head + FilteredMedications(a[1..] + b, search);
        { MedicationsKeepOrder(a[1..], b, search); }
        head + (FilteredMedications(a[1..], search) + FilteredMedications(b, search));
        (head + FilteredMedications(a[1..], search)) + FilteredMedications(b, search);
        { MedicationsCons(a[0], a[1..], search); }
        FilteredMedications(a, search) + FilteredMedications(b, search);
      }
    }
  }

  /** With an empty search the whole schedule is listed. */
  lemma {:induction false} MedicationsEmptySearch(meds: seq<ScheduledDose>)
    ensures FilteredMedications(meds, "") == meds
  {
    if meds != [] {
      EmptySearchMatches(meds[0].name);
      MedicationsEmptySearch(meds[1..]);
    }
  }

  /** `handleTake(index)`'s patch on the unfiltered list: the row at `index` becomes "Taken". */
  function Take(meds: seq<ScheduledDose>, index: int): (r: seq<ScheduledDose>)
    ensures |r| == |meds|
    ensures forall i :: 0 <= i < |r| && i != index ==> r[i] == meds[i]
    ensures 0 <= index < |meds| ==> r[index] == meds[index].(status := Taken)
  {
    seq(|meds|, i requires 0 <= i < |meds| => if i == index then meds[i].(status := Taken) else meds[i])
  }

  /** An index outside the list changes nothing. */
  lemma TakeOutOfRange(meds: seq<ScheduledDose>, index: int)
    requires index < 0 || index >= |meds|
    ensures Take(meds, index) == meds
  {
  }

  /** Taking the same row twice is the same as taking it once. */
  lemma TakeIdempotent(meds: seq<ScheduledDose>, index: int)
    ensures Take(Take(meds, index), index) == Take(meds, index)
  {
  }

  /**
   * Where the `k`-th row of the filtered schedule sits in the unfiltered one: a
   * matching row with exactly `k` matching rows before it, so equal rows elsewhere
   * cannot stand in for it.
   */
  function OriginalIndex(meds: seq<ScheduledDose>, search: string, k: nat): (i: nat)
    requires k < |FilteredMedications(meds, search)|
    ensures i < |meds| && meds[i] == FilteredMedications(meds, search)[k]
    ensures MatchesSearch(meds[i].name, search) && |FilteredMedications(meds[..i], search)| == k
  {
    var shown := FilteredMedications(meds, search);
    var rest := FilteredMedications(meds[1..], search);
    if MatchesSearch(meds[0].name, search) then
      assert shown == [meds[0]] + rest;
      if k == 0 then
        assert meds[..0] == [];
        0
      else
        assert shown[k] == rest[k - 1];
        var j := OriginalIndex(meds[1..], search, k - 1);
        assert meds[..1 + j] == [meds[0]] + meds[1..][..j];
        MedicationsCons(meds[0], meds[1..][..j], search);
        1 + j
    else
      assert shown == rest;
      var j := OriginalIndex(meds[1..], search, k);
      assert meds[..1 + j] == [meds[0]] + meds[1..][..j];
      MedicationsCons(meds[0], meds[1..][..j], search);
      1 + j
  }

  /** With an empty search a filtered position is an unfiltered one. */
  lemma {:induction false} OriginalIndexEmptySearch(meds: seq<ScheduledDose>, k: nat)
    requires k < |meds|
    ensures k < |FilteredMedications(meds, "")| && OriginalIndex(meds, "", k) == k
  {
    MedicationsEmptySearch(meds);
    EmptySearchMatches(meds[0].name);
    if k > 0 {
      var rest := meds[1..];
      OriginalIndexEmptySearch(rest, k - 1);
      assert OriginalIndex(meds, "", k) == 1 + OriginalIndex(rest, "", k - 1);
    } else {
      assert OriginalIndex(meds, "", k) == 0;
    }
  }

  /**
   * The schedule's "Take" button as written: it passes its position in the
   * filtered list, and the handler uses it as a position in the unfiltered list.
   */
  function TakeClickedAsWritten(meds: seq<ScheduledDose>, search: string, k: nat): (r: seq<ScheduledDose>)
    requires k < |FilteredMedications(meds, search)|
    ensures k < |meds| && |r| == |meds|
    ensures r[k] == meds[k].(status := Taken)
    ensures forall i :: 0 <= i < |r| && i != k ==> r[i] == meds[i]
    ensures OriginalIndex(meds, search, k) != k ==>
      r[OriginalIndex(meds, search, k)] == meds[OriginalIndex(meds, search, k)]
  {
    Take(meds, k)
  }

  /** The button as intended: the row marked "Taken" is the row that was clicked. */
  function TakeClicked(meds: seq<ScheduledDose>, search: string, k: nat): (r: seq<ScheduledDose>)
    requires k < |FilteredMedications(meds, search)|
    ensures |r| == |meds|
    ensures r[OriginalIndex(meds, search, k)] == FilteredMedications(meds, search)[k].(status := Taken)
    ensures forall i :: 0 <= i < |r| && i != OriginalIndex(meds, search, k) ==> r[i] == meds[i]
  {
    Take(meds, OriginalIndex(meds, search, k))
  }

  /** With an empty search the button as written updates the clicked row. */
  lemma AsWrittenAgreesOnEmptySearch(meds: seq<ScheduledDose>, k: nat)
    requires k < |meds|
    ensures k < |FilteredMedications(meds, "")|
    ensures TakeClickedAsWritten(meds, "", k) == TakeClicked(meds, "", k)
  {
    OriginalIndexEmptySearch(meds, k);
  }

  /**
   * With the search "b" over the rows "a" (missed) and "b" (upcoming), only "b"
   * is listed, at position 0; clicking it as written marks "a" taken and leaves
   * "b" upcoming.
   */
  lemma AsWrittenTakesWrongRow()
    ensures var meds := [ScheduledDose("a", "1 pill", "500 mg", Missed, "12:30"),
                         ScheduledDose("b", "1 pill", "100 mg", Upcoming, "09:00")];
      FilteredMedications(meds, "b") == [meds[1]] &&
      TakeClickedAsWritten(meds, "b", 0)[0].status == Taken &&
      TakeClickedAsWritten(meds, "b", 0)[1].status == Upcoming &&
      TakeClicked(meds, "b", 0)[1].status == Taken &&
      TakeClicked(meds, "b", 0)[0].status == Missed
  {
    var meds := [ScheduledDose("a", "1 pill", "500 mg", Missed, "12:30"),
                 ScheduledDose("b", "1 pill", "100 mg", Upcoming, "09:00")];
    assert Lower("b") == "b";
    assert Lower("a") == "a";
    assert "a"[0] != "b"[0];
    assert !Includes("a"[1..], "b");
    assert !Includes("a", "b");
    assert !MatchesSearch(meds[0].name, "b");
    assert MatchesSearch(meds[1].name, "b");
    assert meds[1..][1..] == [];
    assert FilteredMedications(meds, "b") == [meds[1]];
    assert OriginalIndex(meds, "b", 0) == 1;
  }

  /** The four dashboard sections that can be hidden. */
  datatype Section = FitnessGoals | GlucoseTrends | CareTeam | MedicationSchedule

  /** `visibleSections`: one flag per section. */
  datatype Visibility = Visibility(fitnessGoals: bool, glucoseTrends: bool, careTeam: bool, medicationSchedule: bool)

  const AllVisible: Visibility := Visibility(true, true, true, true)

  predicate Shows(v: Visibility, s: Section)
  {
    match s
    case FitnessGoals => v.fitnessGoals
    case GlucoseTrends => v.glucoseTrends
    case CareTeam => v.careTeam
    case MedicationSchedule => v.medicationSchedule
  }

  /** `handleSectionToggle`: flip the flag of one section. */
  function ToggleSection(v: Visibility, s: Section): (r: Visibility)
    ensures Shows(r, s) == !Shows(v, s)
    ensures forall t :: t != s ==> Shows(r, t) == Shows(v, t)
  {
    match s
    case FitnessGoals => v.(fitnessGoals := !v.fitnessGoals)
    case GlucoseTrends => v.(glucoseTrends := !v.glucoseTrends)
    case CareTeam => v.(careTeam := !v.careTeam)
    case MedicationSchedule => v.(medicationSchedule := !v.medicationSchedule)
  }

  /** Toggling a section twice restores the flags. */
  lemma ToggleSectionTwice(v: Visibility, s: Section)
    ensures ToggleSection(ToggleSection(v, s), s) == v
  {
  }

  class DashboardPage {
    var medications: seq<ScheduledDose>
    var careTeam: seq<Member>
    var searchValue: string
    var visible: Visibility
    var toast: string

    /** The page as it mounts: the seed rows and team, an empty search, every section shown. */
    constructor (medications: seq<ScheduledDose>, careTeam: seq<Member>)
      ensures this.medications == medications && this.careTeam == careTeam
      ensures searchValue == "" && visible == AllVisible && toast == ""
    {
      this.medications := medications;
      this.careTeam := careTeam;
      searchValue := "";
      visible := AllVisible;
      toast := "";
    }

    /** The rows the schedule shows. */
    function Schedule(): seq<ScheduledDose>
      reads this
    {
      FilteredMedications(medications, searchValue)
    }

    /** `handleTake`. */
    method HandleTake(index: int)
      modifies this
      ensures medications == Take(old(medications), index)
      ensures careTeam == old(careTeam) && searchValue == old(searchValue) && visible == old(visible)
      ensures toast == "Medication marked as taken!"
    {
      medications := Take(medications, index);
      toast := "Medication marked as taken!";
    }

    /** The "Take" button of the `k`-th shown row, mapped back to that row's place in the list. */
    method TakeShownRow(k: nat)
      requires k < |Schedule()|
      modifies this
      ensures medications == TakeClicked(old(medications), old(searchValue), k)
      ensures careTeam == old(careTeam) && searchValue == old(searchValue) && visible == old(visible)
      ensures toast == "Medication marked as taken!"
    {
      HandleTake(OriginalIndex(medications, searchValue, k));
    }

    /** `handleSectionToggle`. */
    method SectionToggle(s: Section)
      modifies this
      ensures visible == ToggleSection(old(visible), s)
      ensures medications == old(medications) && careTeam == old(careTeam)
      ensures searchValue == old(searchValue) && toast == old(toast)
    {
      visible := ToggleSection(visible, s);
    }

    /** The toast's timer firing: the message is cleared. */
    method ClearToast()
      modifies this`toast
      ensures toast == ""
    {
      toast := "";
    }
  }
}
