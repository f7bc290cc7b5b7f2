/**
 * The state of the RetroBuddy dashboard component: the fetched data, every
 * user selection, and the kudos list; the load step that picks the default
 * selections; the change handlers; and the kudos form that submits into it.
 */
module Dashboard {
  import opened Common
  import opened Domain
  import opened Strings
  import opened Views
  import opened Costs
  import opened KudosFeed

  /** What the kudos form hands over: a kudos record still without id and timestamp. */
  datatype KudosDraft = KudosDraft(
    sender: string,
    recipient: string,
    message: string,
    tag: string,
    isAnonymous: bool)

  /** `{ ...draft, id, timestamp }`. */
  function Stamp(d: KudosDraft, id: int, timestamp: int): Kudos
  {
    Kudos(id, d.sender, d.recipient, d.message, d.tag, timestamp, d.isAnonymous)
  }

  /** The kudos the dashboard starts with; timestamps are written as YYYYMMDDhhmm. */
  const InitialKudos: seq<Kudos> := [
    Kudos(1, "Alice", "Bob", "Thanks for the great pairing session on the auth bug!", "Pairing", 202504241430, false),
    Kudos(2, "Charlie", "Diana", "Amazing idea for optimizing the build process!", "Innovation", 202504231000, false),
    Kudos(3, "Bob", "Alice", "Really appreciate you helping me debug that tricky CSS issue.", "Helpfulness", 202504221615, false),
    Kudos(4, "System", "Evan", "Went above and beyond staying late to fix the deployment!", "Above & Beyond", 202504210905, true)
  ]

  lemma InitialKudosNewestFirst()
    ensures NewestFirst(InitialKudos)
  {
  }

  /** Every seed kudos carries one of the offered tags. */
  lemma InitialKudosTagged()
    ensures forall k :: k in InitialKudos ==> k.tag in KudosTags
  {
  }

  /** A prepended record no older than the head keeps the list newest first. */
  lemma PrependKeepsNewestFirst(list: seq<Kudos>, k: Kudos)
    requires NewestFirst(list)
    requires |list| > 0 ==> k.timestamp >= list[0].timestamp
    ensures NewestFirst([k] + list)
  {
    forall i | 0 <= i < |list| ensures list[i].timestamp <= k.timestamp {
    }
    PrependNewestFirst(k, list);
  }

  /** Every field of the dashboard that changes, as one value. */
  datatype DashboardState = DashboardState(
    selectedMemberVelocity: Option<string>,
    hourlyRate: real,
    meetingTime: real,
    timePeriod: string,
    filterBy: string,
    selectedSprintFilter: string,
    selectedMilestoneFilter: string,
    selectedSprintIndexes: seq<int>,
    member1: string,
    member2: string,
    kudosList: seq<Kudos>,
    kudosFilters: KudosFilters,
    selectedPieSprintIndex: Option<int>,
    sprints: seq<Sprint>,
    calendarEvents: seq<CalendarEvent>,
    loadFailed: bool)

  /** The default first comparison member: the first member, or "Alice" without members. */
  function DefaultMember1(ms: seq<string>): (r: string)
    ensures |ms| > 0 ==> r == ms[0]
    ensures ms == [] ==> r == "Alice"
  {
    if |ms| > 0 then ms[0] else "Alice"
  }

  /** The default second comparison member: the second member, the team with one member, or "Bob". */
  function DefaultMember2(ms: seq<string>): (r: string)
    ensures |ms| > 1 ==> r == ms[1]
    ensures |ms| == 1 ==> r == TeamKey
    ensures ms == [] ==> r == "Bob"
  {
    if |ms| > 1 then ms[1] else if |ms| == 1 then TeamKey else "Bob"
  }

  /** `?.value || null` of the kudos filter selects. */
  function FilterValue(v: Option<string>): (r: Option<string>)
    ensures r.None? || Truthy(r)
    ensures Truthy(v) ==> r == v
    ensures !Truthy(v) ==> r.None?
  {
    if Truthy(v) then v else None
  }

  /** Sending an empty selection as unset does not change which kudos the feed keeps. */
  lemma FilterValueKeepsMatches(k: Kudos, recipient: Option<string>, tag: Option<string>)
    ensures Matches(k, KudosFilters(FilterValue(recipient), FilterValue(tag))) == Matches(k, KudosFilters(recipient, tag))
    ensures Matches(k, KudosFilters(FilterValue(recipient), FilterValue(tag))) <==>
      (!Truthy(recipient) || k.recipient == recipient.value) && (!Truthy(tag) || k.tag == tag.value)
  {
  }

  /** The sprint label of an event. */
  function SprintOf(e: CalendarEvent): string { e.sprint }

  /** The milestone label of an event. */
  function MilestoneOf(e: CalendarEvent): string { e.milestone }

  /** `events.map(field)`: one label per event, in order. */
  function Labels(events: seq<CalendarEvent>, field: CalendarEvent -> string): (r: seq<string>)
    ensures |r| == |events| && forall i :: 0 <= i < |events| ==> r[i] == field(events[i])
    ensures forall y :: y in r <==> exists e :: e in events && field(e) == y
  {
    var r := seq(|events|, i requires 0 <= i < |events| => field(events[i]));
    assert forall y :: y in r <==> exists e :: e in events && field(e) == y by {
      forall y ensures y in r <==> exists e :: e in events && field(e) == y {
        if y in r {
          var i :| 0 <= i < |r| && r[i] == y;
          assert events[i] in events;
        }
        if exists e :: e in events && field(e) == y {
          var e :| e in events && field(e) == y;
          var i :| 0 <= i < |events| && events[i] == e;
          assert r[i] == y;
        }
      }
    }
    r
  }

  /**
   * `[...new Set(events.map(field))].sort()`: the options of a cost filter
   * select, each label of the events once, ascending.
   */
  function FilterOptions(events: seq<CalendarEvent>, field: CalendarEvent -> string): (r: seq<string>)
    ensures Ascending(r)
    ensures forall y :: y in r <==> exists e :: e in events && field(e) == y
  {
    DistinctSorted(Labels(events, field))
  }

  /**
   * The state once the sprints response is in: the sprints are stored; with at
   * least one sprint every sprint is selected for the comparison and the last
   * one for the pie; the comparison members become the default pair.
   */
  function SprintsLoaded(st: DashboardState, fetched: seq<Sprint>): (r: DashboardState)
    ensures r.sprints == fetched
    ensures |fetched| == 0 ==> r.selectedSprintIndexes == st.selectedSprintIndexes && r.selectedPieSprintIndex == st.selectedPieSprintIndex
    ensures |fetched| > 0 ==> r.selectedPieSprintIndex == Some(|fetched| - 1)
  {
    var ms := Members(fetched);
    st.(sprints := fetched,
        selectedSprintIndexes := if |fetched| > 0 then Range(|fetched|) else st.selectedSprintIndexes,
        selectedPieSprintIndex := if |fetched| > 0 then Some(|fetched| - 1) else st.selectedPieSprintIndex,
        member1 := DefaultMember1(ms),
        member2 := DefaultMember2(ms))
  }

  /**
   * The state once the events response is in: the events are stored and each
   * cost filter becomes the first of its options, when there is one.
   */
  function EventsLoaded(st: DashboardState, events: seq<CalendarEvent>): (r: DashboardState)
    ensures r == st.(calendarEvents := events, selectedSprintFilter := r.selectedSprintFilter,
                     selectedMilestoneFilter := r.selectedMilestoneFilter)
    ensures events == [] ==> r == st.(calendarEvents := [])
    ensures events != [] ==> exists e :: e in events && e.sprint == r.selectedSprintFilter
    ensures events != [] ==> exists e :: e in events && e.milestone == r.selectedMilestoneFilter
  {
    var so, mo := FilterOptions(events, SprintOf), FilterOptions(events, MilestoneOf);
    assert events != [] ==> events[0] in events && SprintOf(events[0]) in so && MilestoneOf(events[0]) in mo;
    assert events != [] ==> so[0] in so && mo[0] in mo;
    st.(calendarEvents := events,
        selectedSprintFilter := if |so| > 0 then so[0] else st.selectedSprintFilter,
        selectedMilestoneFilter := if |mo| > 0 then mo[0] else st.selectedMilestoneFilter)
  }

  /**
   * The initial comparison members the load computes from the first sprint's
   * member keys, falling back to "Alice" and "Bob".
   */
  method InitialMembers(fetchedSprints: seq<Sprint>) returns (initialMember1: string, initialMember2: string)
    ensures initialMember1 == DefaultMember1(Members(fetchedSprints))
    ensures initialMember2 == DefaultMember2(Members(fetchedSprints))
  {
    initialMember1, initialMember2 := "Alice", "Bob";
    if |fetchedSprints| > 0 {
      var membersList := MemberKeys(fetchedSprints[0].members);
      if |membersList| > 0 {
        initialMember1 := membersList[0];
      }
      if |membersList| > 1 {
        initialMember2 := membersList[1];
      } else if |membersList| == 1 {
        initialMember2 := TeamKey;
      }
    }
  }

  /** Loading the sprints changes only the sprints, the two selections and the two members. */
  lemma SprintsLoadedKeepsTheRest(st: DashboardState, fetched: seq<Sprint>)
    ensures var r := SprintsLoaded(st, fetched);
      r == st.(sprints := fetched, selectedSprintIndexes := r.selectedSprintIndexes,
               selectedPieSprintIndex := r.selectedPieSprintIndex, member1 := r.member1, member2 := r.member2)
    ensures |fetched| == 0 ==> SprintsLoaded(st, fetched) == st.(sprints := [], member1 := "Alice", member2 := "Bob")
  {
  }

  /** After the sprints load every sprint is charted and the pie shows the latest one. */
  lemma SprintsLoadedSelectsAll(st: DashboardState, fetched: seq<Sprint>)
    requires |fetched| > 0
    ensures var st' := SprintsLoaded(st, fetched);
      && FilterByIndex(st'.sprints, st'.selectedSprintIndexes) == fetched
      && SprintForPie(st'.sprints, st'.selectedPieSprintIndex) == Some(fetched[|fetched| - 1])
  {
    var n := |fetched|;
    var st' := SprintsLoaded(st, fetched);
    assert st'.sprints == fetched && st'.selectedSprintIndexes == Range(n) && st'.selectedPieSprintIndex == Some(n - 1);
    SelectAllIndexes(n);
    var r := FilterByIndex(fetched, Range(n));
    assert |r| == n;
    forall k | 0 <= k < n ensures r[k] == fetched[k] {
      assert SelectedIndexes(n, Range(n))[k] == Range(n)[k] == k;
    }
  }

  /**
   * The default comparison members after the sprints load: the first and the
   * second member of the first sprint; "Team" as the second when it has one
   * member; "Alice" and "Bob" when there are no members. With distinct member
   * names and at least two members the two defaults differ.
   */
  lemma DefaultComparisonMembers(st: DashboardState, fetched: seq<Sprint>)
    ensures var st' := SprintsLoaded(st, fetched);
      && (|fetched| == 0 || |fetched[0].members| == 0 ==> st'.member1 == "Alice" && st'.member2 == "Bob")
      && (|fetched| > 0 && |fetched[0].members| > 0 ==> st'.member1 == fetched[0].members[0].name)
      && (|fetched| > 0 && |fetched[0].members| == 1 ==> st'.member2 == TeamKey)
      && (|fetched| > 0 && |fetched[0].members| > 1 ==> st'.member2 == fetched[0].members[1].name)
      && (|fetched| > 0 && |fetched[0].members| > 1 && DistinctKeys(fetched[0].members) ==> st'.member1 != st'.member2)
  {
  }

  /** The first option of a cost filter is a label of some event and less than every other label. */
  lemma FilterOptionsHeadIsLeast(events: seq<CalendarEvent>, field: CalendarEvent -> string)
    requires |events| > 0
    ensures |FilterOptions(events, field)| > 0
    ensures FilterOptions(events, field)[0] in Labels(events, field)
    ensures forall e :: e in events && field(e) != FilterOptions(events, field)[0] ==>
      Less(FilterOptions(events, field)[0], field(e))
  {
    var labels := Labels(events, field);
    DistinctSortedHeadIsLeast(labels);
    forall e | e in events ensures field(e) in labels {
    }
  }

  /**
   * After the events load with at least one event, each cost filter holds the
   * least label of its dimension, so filtering by it keeps at least one event.
   */
  lemma {:induction false} EventsLoadedFiltersLeast(st: DashboardState, events: seq<CalendarEvent>)
    requires |events| > 0
    ensures var st' := EventsLoaded(st, events);
      && st'.selectedSprintFilter in Labels(events, SprintOf)
      && (forall e :: e in events && e.sprint != st'.selectedSprintFilter ==> Less(st'.selectedSprintFilter, e.sprint))
      && st'.selectedMilestoneFilter in Labels(events, MilestoneOf)
      && (forall e :: e in events && e.milestone != st'.selectedMilestoneFilter ==> Less(st'.selectedMilestoneFilter, e.milestone))
  {
    var st' := EventsLoaded(st, events);
    FilterOptionsHeadIsLeast(events, SprintOf);
    FilterOptionsHeadIsLeast(events, MilestoneOf);
    assert st'.selectedSprintFilter == FilterOptions(events, SprintOf)[0];
    assert st'.selectedMilestoneFilter == FilterOptions(events, MilestoneOf)[0];
    forall e | e in events ensures e.sprint == SprintOf(e) && e.milestone == MilestoneOf(e) {
    }
  }

  /** With the default filter, the first cost chart keeps at least one event. */
  lemma DefaultFilterKeepsAnEvent(st: DashboardState, events: seq<CalendarEvent>, timePeriod: string)
    requires |events| > 0
    ensures var st' := EventsLoaded(st, events);
      (exists e :: e in events && Survives(e, CostQuery(timePeriod, "sprint", st'.selectedSprintFilter, st'.selectedMilestoneFilter)))
      && (exists e :: e in events && Survives(e, CostQuery(timePeriod, "milestone", st'.selectedSprintFilter, st'.selectedMilestoneFilter)))
  {
    EventsLoadedFiltersLeast(st, events);
    var st' := EventsLoaded(st, events);
    var sl, ml := Labels(events, SprintOf), Labels(events, MilestoneOf);
    var i :| 0 <= i < |sl| && sl[i] == st'.selectedSprintFilter;
    assert Survives(events[i], CostQuery(timePeriod, "sprint", st'.selectedSprintFilter, st'.selectedMilestoneFilter));
    var j :| 0 <= j < |ml| && ml[j] == st'.selectedMilestoneFilter;
    assert Survives(events[j], CostQuery(timePeriod, "milestone", st'.selectedSprintFilter, st'.selectedMilestoneFilter));
  }

  class RetroBuddyDashboard {
    var selectedMemberVelocity: Option<string>
    var hourlyRate: real
    var meetingTime: real
    var timePeriod: string
    var filterBy: string
    var selectedSprintFilter: string
    var selectedMilestoneFilter: string
    var selectedSprintIndexes: seq<int>
    var member1: string
    var member2: string
    var kudosList: seq<Kudos>
    var kudosFilters: KudosFilters
    const currentUser: string
    var selectedPieSprintIndex: Option<int>
    var sprints: seq<Sprint>
    var calendarEvents: seq<CalendarEvent>
    var loadFailed: bool

    /** The rate and the meeting time are never negative. */
    ghost predicate Valid()
      reads this
    {
      hourlyRate >= 0.0 && meetingTime >= 0.0
    }

    function State(): DashboardState
      reads this
    {
      DashboardState(
        selectedMemberVelocity, hourlyRate, meetingTime, timePeriod, filterBy,
        selectedSprintFilter, selectedMilestoneFilter, selectedSprintIndexes,
        member1, member2, kudosList, kudosFilters, selectedPieSprintIndex,
        sprints, calendarEvents, loadFailed)
    }

    constructor()
      ensures Valid()
      ensures currentUser == "Entire Team"
      ensures State() == DashboardState(
        None, 50.0, 1.0, "day", "sprint", "", "", [], "", "",
        InitialKudos, KudosFilters(None, None), None, [], [], false)
    {
      selectedMemberVelocity := None;
      hourlyRate := 50.0;
      meetingTime := 1.0;
      timePeriod := "day";
      filterBy := "sprint";
      selectedSprintFilter := "";
      selectedMilestoneFilter := "";
      selectedSprintIndexes := [];
      member1 := "";
      member2 := "";
      kudosList := InitialKudos;
      kudosFilters := KudosFilters(None, None);
      currentUser := "Entire Team";
      selectedPieSprintIndex := None;
      sprints := [];
      calendarEvents := [];
      loadFailed := false;
    }

    // ------------------------------------------------------------ derived data

    /** `members`: the first sprint's member keys. */
    function MemberList(): (r: seq<string>)
      reads this
      ensures |sprints| == 0 ==> r == []
      ensures |sprints| > 0 ==> |r| == |sprints[0].members|
      ensures forall i :: 0 <= i < |r| ==> r[i] == sprints[0].members[i].name
    {
      Members(sprints)
    }

    /** `velocityData`: one point per stored sprint under the stored member filter. */
    function VelocityData(): (r: seq<VelocityPoint>)
      reads this
      ensures |r| == |sprints|
      ensures forall i :: 0 <= i < |r| ==> r[i].sprint == sprints[i].sprint && r[i].committed == sprints[i].committed
      ensures !Truthy(selectedMemberVelocity) ==> forall i :: 0 <= i < |r| ==> r[i].completed == sprints[i].completed
      ensures Truthy(selectedMemberVelocity) ==> forall i :: 0 <= i < |r| ==>
        (selectedMemberVelocity.value in MemberKeys(sprints[i].members) ==>
          MemberEntry(selectedMemberVelocity.value, r[i].completed) in sprints[i].members)
      ensures Truthy(selectedMemberVelocity) ==> forall i :: 0 <= i < |r| ==>
        (selectedMemberVelocity.value !in MemberKeys(sprints[i].members) ==> r[i].completed == 0)
    {
      Velocity(sprints, selectedMemberVelocity)
    }

    /** `pieData`: the slices of the stored pie sprint, none without one. */
    function PieSlices(): (r: seq<Slice>)
      reads this
      ensures r == [] <==> selectedPieSprintIndex.None? || !(0 <= selectedPieSprintIndex.value < |sprints|)
      ensures r != [] ==> var s := sprints[selectedPieSprintIndex.value];
        r == [Slice("Bugs", s.bugs), Slice("Features", s.features), Slice("Chores", s.chores)]
    {
      PieData(sprints, selectedPieSprintIndex)
    }

    /** The insights card: nothing without sprints, else the latest sprint's notes. */
    function InsightList(): (r: seq<Insight>)
      reads this
      ensures |sprints| == 0 ==> r == []
      ensures |sprints| > 0 ==> r == SprintInsights(sprints[|sprints| - 1]) && BalanceSuggestion in r
    {
      Insights(sprints)
    }

    /** `memberComparisonData`: one row per selected stored sprint, in series order. */
    function MemberComparisonData(): (r: seq<map<string, Field>>)
      reads this
      ensures |r| == |SelectedIndexes(|sprints|, selectedSprintIndexes)|
      ensures forall k :: 0 <= k < |r| ==>
        r[k] == ComparisonRow(sprints[SelectedIndexes(|sprints|, selectedSprintIndexes)[k]], member1, member2)
    {
      Comparison(sprints, selectedSprintIndexes, member1, member2)
    }

    /** The filter state the cost chart reads: an event survives exactly when it matches the active dimension. */
    function CostSelection(): (r: CostQuery)
      reads this
      ensures r.timePeriod == timePeriod
      ensures forall e :: Survives(e, r) <==>
        (filterBy == "sprint" ==> e.sprint == selectedSprintFilter) &&
        (filterBy == "milestone" ==> e.milestone == selectedMilestoneFilter)
    {
      CostQuery(timePeriod, filterBy, selectedSprintFilter, selectedMilestoneFilter)
    }

    /** `filteredKudos`: the stored kudos matching the stored filters, newest first, ties in list order. */
    function FilteredKudos(): (r: seq<Kudos>)
      reads this
      ensures forall x :: multiset(r)[x] == if Matches(x, kudosFilters) then multiset(kudosList)[x] else 0
      ensures NewestFirst(r)
      ensures forall t :: At(r, t) == At(FilterKudos(kudosList, kudosFilters), t)
    {
      Project(kudosList, kudosFilters)
    }

    /** The single-meeting cost for every member; never negative. */
    function MeetingCost(): (r: real)
      reads this
      requires Valid()
      ensures r >= 0.0
      ensures |MemberList()| == 0 ==> r == 0.0
    {
      SingleMeetingCost(hourlyRate, meetingTime, |MemberList()|)
    }

    /** The aggregated-cost chart for the current events and selection. */
    method AggregatedCostChartData() returns (r: seq<CostPoint>)
      ensures Ascending(Periods(r))
      ensures forall k :: k in Periods(r) <==>
        exists e :: e in calendarEvents && Survives(e, CostSelection()) && PeriodKey(e, timePeriod) == k
      ensures Survivors(calendarEvents, CostSelection()) == [] ==> r == []
      ensures forall i :: 0 <= i < |r| ==> r[i].cost == SumWhere(calendarEvents, CostSelection(), r[i].period)
      ensures CostSum(r) == TotalCost(Survivors(calendarEvents, CostSelection()))
    {
      r := AggregateCosts(calendarEvents, CostSelection());
    }

    // ------------------------------------------------------------ loading

    /**
     * The data load. A rejected request, or a failed sprints response, changes
     * nothing but the error flag. Otherwise the sprints and the default
     * selections are stored; a failed events response then stops the load with
     * the error flag, and a good one stores the events and the cost filters.
     */
    method Load(sprintFetch: Fetch<seq<Sprint>>, eventFetch: Fetch<seq<CalendarEvent>>)
      requires Valid()
      modifies this
      ensures Valid()
      ensures sprintFetch.NetworkError? || eventFetch.NetworkError? || sprintFetch.HttpError? ==>
        State() == old(State()).(loadFailed := true)
      ensures sprintFetch.Fetched? && eventFetch.HttpError? ==>
        State() == SprintsLoaded(old(State()), sprintFetch.body).(loadFailed := true)
      ensures sprintFetch.Fetched? && eventFetch.Fetched? ==>
        State() == EventsLoaded(SprintsLoaded(old(State()), sprintFetch.body), eventFetch.body).(loadFailed := false)
    {
      loadFailed := false;
      if sprintFetch.NetworkError? || eventFetch.NetworkError? || sprintFetch.HttpError? {
        loadFailed := true;
        return;
      }
      StoreSprints(sprintFetch.body);
      if eventFetch.HttpError? {
        loadFailed := true;
        return;
      }
      StoreEvents(eventFetch.body);
    }

    /** The sprints half of the load, after a good sprints response. */
    method StoreSprints(fetchedSprints: seq<Sprint>)
      modifies this
      ensures State() == SprintsLoaded(old(State()), fetchedSprints)
    {
      SelectLoadedSprints(fetchedSprints);
      member1, member2 := InitialMembers(fetchedSprints);
    }

    /** Stores the sprints; when there are any, charts all of them and shows the last in the pie. */
    method SelectLoadedSprints(fetchedSprints: seq<Sprint>)
      modifies this
      ensures State() == old(State()).(sprints := fetchedSprints,
        selectedSprintIndexes := if |fetchedSprints| > 0 then Range(|fetchedSprints|) else old(selectedSprintIndexes),
        selectedPieSprintIndex := if |fetchedSprints| > 0 then Some(|fetchedSprints| - 1) else old(selectedPieSprintIndex))
    {
      sprints := fetchedSprints;
      if |fetchedSprints| > 0 {
        selectedSprintIndexes := Range(|fetchedSprints|);
        selectedPieSprintIndex := Some(|fetchedSprints| - 1);
      }
    }

    /** The events half of the load, after a good events response. */
    method StoreEvents(fetchedEvents: seq<CalendarEvent>)
      modifies this
      ensures State() == EventsLoaded(old(State()), fetchedEvents)
    {
      calendarEvents := fetchedEvents;
      var uniqueSprints := FilterOptions(fetchedEvents, SprintOf);
      var uniqueMilestones := FilterOptions(fetchedEvents, MilestoneOf);
      if |uniqueSprints| > 0 {
        selectedSprintFilter := uniqueSprints[0];
      }
      if |uniqueMilestones| > 0 {
        selectedMilestoneFilter := uniqueMilestones[0];
      }
      assert State() == old(State()).(
        calendarEvents := fetchedEvents,
        selectedSprintFilter := selectedSprintFilter,
        selectedMilestoneFilter := selectedMilestoneFilter);
    }

    // ------------------------------------------------------------ handlers

    method HandleMemberVelocityChange(value: Option<string>)
      modifies this
      ensures State() == old(State()).(selectedMemberVelocity := if Truthy(value) then value else None)
    {
      selectedMemberVelocity := if Truthy(value) then value else None;
    }

    method HandleRateChange(parsed: Option<real>)
      requires Valid()
      modifies this
      ensures Valid()
      ensures State() == old(State()).(hourlyRate := ClampInput(parsed))
    {
      hourlyRate := ClampInput(parsed);
    }

    method HandleTimeChange(parsed: Option<real>)
      requires Valid()
      modifies this
      ensures Valid()
      ensures State() == old(State()).(meetingTime := ClampInput(parsed))
    {
      meetingTime := ClampInput(parsed);
    }

    method HandlePeriodChange(value: Option<string>)
      modifies this
      ensures State() == old(State()).(timePeriod := OrElse(value, "day"))
    {
      timePeriod := OrElse(value, "day");
    }

    method HandleFilterTypeChange(value: Option<string>)
      modifies this
      ensures State() == old(State()).(filterBy := OrElse(value, "sprint"))
    {
      filterBy := OrElse(value, "sprint");
    }

    /** Clearing the sprint select stores "", which then matches only events whose sprint is "". */
    method HandleSprintFilterChange(value: Option<string>)
      modifies this
      ensures State() == old(State()).(selectedSprintFilter := OrElse(value, ""))
      ensures value.None? && filterBy == "sprint" ==>
        forall e :: Survives(e, CostSelection()) <==> e.sprint == ""
    {
      selectedSprintFilter := OrElse(value, "");
    }

    method HandleMilestoneFilterChange(value: Option<string>)
      modifies this
      ensures State() == old(State()).(selectedMilestoneFilter := OrElse(value, ""))
    {
      selectedMilestoneFilter := OrElse(value, "");
    }

    method HandleSprintSelectionChange(values: Option<seq<int>>)
      modifies this
      ensures State() == old(State()).(selectedSprintIndexes := values.GetOr([]))
    {
      selectedSprintIndexes := values.GetOr([]);
    }

    method HandleMember1Change(value: Option<string>)
      modifies this
      ensures State() == old(State()).(member1 := OrElse(value, ""))
    {
      member1 := OrElse(value, "");
    }

    method HandleMember2Change(value: Option<string>)
      modifies this
      ensures State() == old(State()).(member2 := OrElse(value, ""))
    {
      member2 := OrElse(value, "");
    }

    /** The new record goes to the head of the list; the older records follow unchanged. */
    method HandleKudosSubmit(draft: KudosDraft, id: int, timestamp: int)
      modifies this
      ensures State() == old(State()).(kudosList := [Stamp(draft, id, timestamp)] + old(kudosList))
      ensures |kudosList| == |old(kudosList)| + 1 && kudosList[1..] == old(kudosList)
      ensures kudosList[0] == Stamp(draft, id, timestamp)
    {
      kudosList := [Stamp(draft, id, timestamp)] + kudosList;
    }

    method HandleKudosFilterChange(filters: KudosFilters)
      modifies this
      ensures State() == old(State()).(kudosFilters := filters)
    {
      kudosFilters := filters;
    }

    method HandlePieSprintChange(value: Option<int>)
      modifies this
      ensures State() == old(State()).(selectedPieSprintIndex := value)
    {
      selectedPieSprintIndex := value;
    }
  }

  /** The kudos form: its own selections, reset after a successful submit. */
  class KudosForm {
    var recipient: Option<string>
    var tag: Option<string>
    var message: string
    var isAnonymous: bool
    const currentUser: string

    /** The tag select only offers the recognition tags. */
    ghost predicate Valid()
      reads this
    {
      tag.None? || tag.value in KudosTags
    }

    constructor(currentUser: string)
      ensures Valid()
      ensures this.currentUser == currentUser
      ensures recipient == None && tag == None && message == "" && !isAnonymous
    {
      this.currentUser := currentUser;
      recipient, tag, message, isAnonymous := None, None, "", false;
    }

    method SetRecipient(value: Option<string>)
      modifies this
      ensures recipient == value && tag == old(tag) && message == old(message) && isAnonymous == old(isAnonymous)
    {
      recipient := value;
    }

    method SetTag(value: Option<string>)
      requires value.None? || value.value in KudosTags
      modifies this
      ensures Valid()
      ensures tag == value && recipient == old(recipient) && message == old(message) && isAnonymous == old(isAnonymous)
    {
      tag := value;
    }

    method SetMessage(value: string)
      modifies this
      ensures message == value && recipient == old(recipient) && tag == old(tag) && isAnonymous == old(isAnonymous)
    {
      message := value;
    }

    method SetAnonymous(value: bool)
      modifies this
      ensures isAnonymous == value && recipient == old(recipient) && tag == old(tag) && message == old(message)
    {
      isAnonymous := value;
    }

    /** Resets the form after a submission. */
    method Clear()
      modifies this
      ensures Valid()
      ensures recipient == None && tag == None && message == "" && !isAnonymous
    {
      recipient, tag, message, isAnonymous := None, None, "", false;
    }

    /**
     * Submit: without a recipient, without a tag, or with a blank message
     * nothing changes. Otherwise the dashboard prepends the new kudos, sent as
     * the current user with the form's recipient, tag, message and anonymity,
     * and the form is cleared.
     */
    method HandleSubmit(dashboard: RetroBuddyDashboard, id: int, timestamp: int) returns (submitted: bool)
      requires Valid()
      requires currentUser == dashboard.currentUser
      modifies this, dashboard
      ensures Valid()
      ensures submitted == CanSubmit(old(recipient), old(tag), old(message))
      ensures submitted ==> |dashboard.kudosList| > 0 && dashboard.kudosList[0].tag in KudosTags
      ensures !submitted ==> unchanged(this) && unchanged(dashboard)
      ensures submitted ==>
        && dashboard.State() == old(dashboard.State()).(kudosList :=
             [Kudos(id, currentUser, old(recipient).value, old(message), old(tag).value, timestamp, old(isAnonymous))]
             + old(dashboard.kudosList))
        && recipient == None && tag == None && message == "" && !isAnonymous
    {
      if !CanSubmit(recipient, tag, message) {
        return false;
      }
      dashboard.HandleKudosSubmit(KudosDraft(currentUser, recipient.value, message, tag.value, isAnonymous), id, timestamp);
      Clear();
      return true;
    }
  }
}
