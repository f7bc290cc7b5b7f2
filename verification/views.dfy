/**
 * The derived views of the dashboard: pure functions of the fetched sprints and
 * the current selection, recomputed on every change.
 */
module Views {
  import opened Common
  import opened Domain

  // ---------------------------------------------------------------- members

  /** The member names: the keys of the first sprint's `members`, or none. */
  function Members(sprints: seq<Sprint>): (r: seq<string>)
    ensures |sprints| == 0 ==> r == []
    ensures |sprints| > 0 ==> |r| == |sprints[0].members|
    ensures forall i :: 0 <= i < |r| ==> r[i] == sprints[0].members[i].name
    ensures |sprints| > 0 && DistinctKeys(sprints[0].members) ==>
      forall i, j :: 0 <= i < j < |r| ==> r[i] != r[j]
  {
    if |sprints| > 0 then MemberKeys(sprints[0].members) else []
  }

  // ---------------------------------------------------------------- velocity

  datatype VelocityPoint = VelocityPoint(sprint: string, committed: int, completed: int)

  /** The points charted for one sprint under the velocity member filter. */
  function VelocityOf(s: Sprint, member: Option<string>): VelocityPoint
  {
    VelocityPoint(
      s.sprint,
      s.committed,
      if Truthy(member) then LookupCompleted(s.members, member.value).GetOr(0) else s.completed)
  }

  /**
   * The velocity series: one point per sprint, in series order. Without a
   * member filter `completed` is the team figure; with one it is that member's
   * figure, or 0 when the sprint has no entry for the member.
   */
  function Velocity(sprints: seq<Sprint>, member: Option<string>): (r: seq<VelocityPoint>)
    ensures |r| == |sprints|
    ensures forall i :: 0 <= i < |r| ==>
      r[i].sprint == sprints[i].sprint && r[i].committed == sprints[i].committed
    ensures !Truthy(member) ==>
      forall i :: 0 <= i < |r| ==> r[i].completed == sprints[i].completed
    ensures Truthy(member) ==> forall i :: 0 <= i < |r| ==>
      (member.value in MemberKeys(sprints[i].members) ==>
        MemberEntry(member.value, r[i].completed) in sprints[i].members)
    ensures Truthy(member) ==> forall i :: 0 <= i < |r| ==>
      (member.value !in MemberKeys(sprints[i].members) ==> r[i].completed == 0)
  {
    if |sprints| == 0 then [] else [VelocityOf(sprints[0], member)] + Velocity(sprints[1..], member)
  }

  /** With a member filter, a sprint whose record has the member's entry charts exactly that entry. */
  lemma VelocityMemberFigure(sprints: seq<Sprint>, member: Option<string>, i: int, c: int)
    requires Truthy(member) && 0 <= i < |sprints|
    requires DistinctKeys(sprints[i].members) && MemberEntry(member.value, c) in sprints[i].members
    ensures Velocity(sprints, member)[i].completed == c
  {
    var r := Velocity(sprints, member);
    assert member.value in MemberKeys(sprints[i].members) by {
      var j :| 0 <= j < |sprints[i].members| && sprints[i].members[j] == MemberEntry(member.value, c);
      assert MemberKeys(sprints[i].members)[j] == member.value;
    }
    var d := r[i].completed;
    assert MemberEntry(member.value, d) in sprints[i].members;
    assert LookupCompleted(sprints[i].members, member.value) == Some(c) == Some(d);
  }

  // ---------------------------------------------------------------- work breakdown

  datatype Slice = Slice(name: string, value: int)

  /** `sprints[index]` when the index is set and names a sprint. */
  function SprintForPie(sprints: seq<Sprint>, index: Option<int>): (r: Option<Sprint>)
    ensures r.Some? <==> index.Some? && 0 <= index.value < |sprints|
    ensures r.Some? ==> r.value == sprints[index.value]
  {
    if index.Some? && 0 <= index.value < |sprints| then Some(sprints[index.value]) else None
  }

  /**
   * The work-breakdown pie: empty without a selected sprint, otherwise the
   * Bugs, Features and Chores points of that sprint, in this order.
   */
  function PieData(sprints: seq<Sprint>, index: Option<int>): (r: seq<Slice>)
    ensures r == [] <==> index.None? || !(0 <= index.value < |sprints|)
    ensures r != [] ==> (|r| == 3
      && r[0] == Slice("Bugs", sprints[index.value].bugs)
      && r[1] == Slice("Features", sprints[index.value].features)
      && r[2] == Slice("Chores", sprints[index.value].chores))
  {
    match SprintForPie(sprints, index)
    case None => []
    case Some(s) => [Slice("Bugs", s.bugs), Slice("Features", s.features), Slice("Chores", s.chores)]
  }

  // ---------------------------------------------------------------- insights

  /** The bullet points of the latest-sprint insights card, in display order. */
  datatype Insight =
    | LowCompletion
    | CommitmentMet
    | HighBugs
    | ModerateBugs
    | LowFeatures
    | GoodFeatures
    | BalanceSuggestion

  function Rank(n: Insight): nat
  {
    match n
    case LowCompletion => 0
    case CommitmentMet => 1
    case HighBugs => 2
    case ModerateBugs => 3
    case LowFeatures => 4
    case GoodFeatures => 5
    case BalanceSuggestion => 6
  }

  function LatestSprint(sprints: seq<Sprint>): (r: Option<Sprint>)
    ensures r.None? <==> |sprints| == 0
    ensures r.Some? ==> r.value == sprints[|sprints| - 1]
  {
    if |sprints| > 0 then Some(sprints[|sprints| - 1]) else None
  }

  /** The condition under which the card shows an insight. */
  predicate Holds(s: Sprint, n: Insight)
  {
    match n
    case LowCompletion => (s.completed as real) < (s.committed as real) * 0.7
    case CommitmentMet => s.completed >= s.committed
    case HighBugs => s.bugs > 10
    case ModerateBugs => s.bugs <= 5 && s.bugs > 0
    case LowFeatures => s.features < 15 && s.completed > 0
    case GoodFeatures => s.features >= 15
    case BalanceSuggestion => true
  }

  /** Every bullet of the card, in display order. */
  const AllInsights: seq<Insight> :=
    [LowCompletion, CommitmentMet, HighBugs, ModerateBugs, LowFeatures, GoodFeatures, BalanceSuggestion]

  predicate RankAscending(ns: seq<Insight>)
  {
    forall i, j :: 0 <= i < j < |ns| ==> Rank(ns[i]) < Rank(ns[j])
  }

  /** The bullets of `ns` whose condition holds for `s`, in the order of `ns`. */
  function Shown(s: Sprint, ns: seq<Insight>): (r: seq<Insight>)
    ensures forall n :: n in r <==> n in ns && Holds(s, n)
  {
    if |ns| == 0 then []
    else
      assert ns == [ns[0]] + ns[1..];
      (if Holds(s, ns[0]) then [ns[0]] else []) + Shown(s, ns[1..])
  }

  lemma AllInsightsInOrder()
    ensures RankAscending(AllInsights)
  {
    forall i, j | 0 <= i < j < |AllInsights| ensures Rank(AllInsights[i]) < Rank(AllInsights[j]) {
      assert Rank(AllInsights[i]) == i && Rank(AllInsights[j]) == j;
    }
  }

  /** A bullet ranked below every bullet of an ordered list can go in front of it. */
  lemma PrependKeepsOrder(x: Insight, rest: seq<Insight>)
    requires RankAscending(rest)
    requires forall n :: n in rest ==> Rank(x) < Rank(n)
    ensures RankAscending([x] + rest)
  {
    var r := [x] + rest;
    forall i, j | 0 <= i < j < |r| ensures Rank(r[i]) < Rank(r[j]) {
      assert r[j] == rest[j - 1];
      if i > 0 {
        assert r[i] == rest[i - 1];
      }
    }
  }

  /** Showing a selection of the bullets keeps their display order. */
  lemma {:induction false} ShownKeepsOrder(s: Sprint, ns: seq<Insight>)
    requires RankAscending(ns)
    ensures RankAscending(Shown(s, ns))
  {
    if |ns| > 0 {
      var tail := ns[1..];
      assert RankAscending(tail);
      ShownKeepsOrder(s, tail);
      var rest := Shown(s, tail);
      forall n | n in rest ensures Rank(ns[0]) < Rank(n) {
        var j :| 0 <= j < |tail| && tail[j] == n;
        assert ns[j + 1] == n;
      }
      if Holds(s, ns[0]) {
        PrependKeepsOrder(ns[0], rest);
      }
    }
  }

  /**
   * The insights for one sprint: six independent threshold notes followed by
   * the balance suggestion, which is always shown.
   */
  function SprintInsights(s: Sprint): (r: seq<Insight>)
    ensures LowCompletion in r <==> (s.completed as real) < (s.committed as real) * 0.7
    ensures CommitmentMet in r <==> s.completed >= s.committed
    ensures HighBugs in r <==> s.bugs > 10
    ensures ModerateBugs in r <==> 0 < s.bugs <= 5
    ensures LowFeatures in r <==> s.features < 15 && s.completed > 0
    ensures GoodFeatures in r <==> s.features >= 15
    ensures BalanceSuggestion in r
    ensures RankAscending(r)
  {
    AllInsightsInOrder();
    ShownKeepsOrder(s, AllInsights);
    Shown(s, AllInsights)
  }

  /** The insights card: nothing without sprints, else the latest sprint's insights. */
  function Insights(sprints: seq<Sprint>): (r: seq<Insight>)
    ensures |sprints| == 0 ==> r == []
    ensures |sprints| > 0 ==> r == SprintInsights(sprints[|sprints| - 1]) && BalanceSuggestion in r
  {
    match LatestSprint(sprints)
    case None => []
    case Some(s) => SprintInsights(s)
  }

  /** Only the latest sprint matters: earlier sprints never change the card. */
  lemma InsightsDependOnLatestOnly(a: seq<Sprint>, b: seq<Sprint>, s: Sprint)
    ensures Insights(a + [s]) == Insights(b + [s]) == SprintInsights(s)
  {
  }

  /** Bug counts 6 to 10 get neither bug note. */
  lemma BugNoteGap(s: Sprint)
    requires 6 <= s.bugs <= 10
    ensures HighBugs !in SprintInsights(s) && ModerateBugs !in SprintInsights(s)
  {
  }

  /** With a non-negative commitment the two completion notes exclude each other. */
  lemma CompletionNotesExclusive(s: Sprint)
    requires s.committed >= 0
    ensures !(LowCompletion in SprintInsights(s) && CommitmentMet in SprintInsights(s))
  {
  }

  /** A sprint that completed something gets exactly one of the two feature notes. */
  lemma FeatureNotesExactlyOne(s: Sprint)
    requires s.completed > 0
    ensures (LowFeatures in SprintInsights(s)) != (GoodFeatures in SprintInsights(s))
  {
  }

  /** completed 5 of 10 committed: the low-completion warning and no commitment note. */
  lemma HalfCompletedSprintWarns(s: Sprint)
    requires s.completed == 5 && s.committed == 10
    ensures LowCompletion in SprintInsights(s) && CommitmentMet !in SprintInsights(s)
  {
  }

  // ---------------------------------------------------------------- member comparison

  /** The literal key that stands for the whole team in the comparison selects. */
  const TeamKey: string := "Team"

  /** A value of a chart record: the sprint label or a number of points. */
  datatype Field = Text(text: string) | Num(num: int)

  /** The value plotted for one comparison key in one sprint. */
  function SeriesValue(s: Sprint, key: string): (r: int)
    ensures key == TeamKey ==> r == s.completed
    ensures key != TeamKey && key in MemberKeys(s.members) ==> MemberEntry(key, r) in s.members
    ensures key != TeamKey && key !in MemberKeys(s.members) ==> r == 0
    ensures key != TeamKey && DistinctKeys(s.members) ==>
      forall c :: MemberEntry(key, c) in s.members ==> r == c
  {
    if key == TeamKey then s.completed else LookupCompleted(s.members, key).GetOr(0)
  }

  /**
   * `{ sprint: s.sprint, [member1]: ..., [member2]: ... }`: later keys of the
   * object literal overwrite earlier equal ones.
   */
  function ComparisonRow(s: Sprint, member1: string, member2: string): (r: map<string, Field>)
    ensures r.Keys == {"sprint", member1, member2}
    ensures r[member2] == Num(SeriesValue(s, member2))
    ensures member1 != member2 ==> r[member1] == Num(SeriesValue(s, member1))
    ensures "sprint" != member1 && "sprint" != member2 ==> r["sprint"] == Text(s.sprint)
  {
    map["sprint" := Text(s.sprint)][member1 := Num(SeriesValue(s, member1))][member2 := Num(SeriesValue(s, member2))]
  }

  /** When both selects name the same key the row carries a single series. */
  lemma SameMemberSingleSeries(s: Sprint, m: string)
    requires m != "sprint"
    ensures |ComparisonRow(s, m, m).Keys| == 2
  {
    assert ComparisonRow(s, m, m).Keys == {"sprint", m};
  }

  /** A member literally called "Team" is hidden behind the team series. */
  lemma TeamKeyShadowsMember(s: Sprint, c: int)
    requires MemberEntry(TeamKey, c) in s.members
    ensures SeriesValue(s, TeamKey) == s.completed
  {
  }

  /** The indexes `i < n` that occur in `selected`, ascending. */
  function SelectedIndexes(n: nat, selected: seq<int>): (r: seq<nat>)
    ensures forall i, j :: 0 <= i < j < |r| ==> r[i] < r[j]
    ensures forall k :: 0 <= k < |r| ==> r[k] < n && r[k] in selected
    ensures forall i :: 0 <= i < n && i in selected ==> i in r
  {
    if n == 0 then []
    else SelectedIndexes(n - 1, selected) + (if n - 1 in selected then [n - 1] else [])
  }

  /** `sprints.filter((_, index) => selected.includes(index))`. */
  function FilterByIndex(sprints: seq<Sprint>, selected: seq<int>): (r: seq<Sprint>)
    ensures |r| == |SelectedIndexes(|sprints|, selected)|
    ensures forall k :: 0 <= k < |r| ==> r[k] == sprints[SelectedIndexes(|sprints|, selected)[k]]
  {
    if |sprints| == 0 then []
    else
      var n := |sprints| - 1;
      FilterByIndex(sprints[..n], selected) + (if n in selected then [sprints[n]] else [])
  }

  /**
   * The comparison chart: one row per selected sprint, in series order (not in
   * the order the sprints were picked).
   */
  function Comparison(sprints: seq<Sprint>, selected: seq<int>, member1: string, member2: string)
    : (r: seq<map<string, Field>>)
    ensures |r| == |SelectedIndexes(|sprints|, selected)|
    ensures forall k :: 0 <= k < |r| ==>
      r[k] == ComparisonRow(sprints[SelectedIndexes(|sprints|, selected)[k]], member1, member2)
  {
    var picked := FilterByIndex(sprints, selected);
    seq(|picked|, k requires 0 <= k < |picked| => ComparisonRow(picked[k], member1, member2))
  }

  /** Only which indexes are selected matters, not their order or repetitions. */
  lemma {:induction false} SelectionOrderIrrelevant(n: nat, a: seq<int>, b: seq<int>)
    requires forall i :: 0 <= i < n ==> (i in a <==> i in b)
    ensures SelectedIndexes(n, a) == SelectedIndexes(n, b)
  {
    if n > 0 {
      SelectionOrderIrrelevant(n - 1, a, b);
    }
  }

  /** `sprints.map((_, index) => index)`: every index of an n-element series. */
  function Range(n: nat): (r: seq<int>)
    ensures |r| == n
    ensures forall i :: 0 <= i < n ==> r[i] == i
  {
    if n == 0 then [] else Range(n - 1) + [n - 1]
  }

  /** Selecting every index charts every sprint, in order. */
  lemma {:induction false} SelectAllIndexes(n: nat)
    ensures SelectedIndexes(n, Range(n)) == Range(n)
  {
    if n > 0 {
      SelectAllIndexes(n - 1);
      var all, below := Range(n), Range(n - 1);
      assert all[n - 1] == n - 1;
      forall i | 0 <= i < n - 1 ensures i in all && i in below {
        assert all[i] == i && below[i] == i;
      }
      SelectionOrderIrrelevant(n - 1, all, below);
    }
  }

  /** Of three sprints, the selection [0, 2] keeps indexes 0 and 2. */
  lemma SelectFirstAndThird()
    ensures SelectedIndexes(3, [0, 2]) == [0, 2]
  {
    var sel: seq<int> := [0, 2];
    assert 0 in sel && 1 !in sel && 2 in sel;
    var s0 := SelectedIndexes(0, sel);
    assert s0 == [];
    var s1 := SelectedIndexes(1, sel);
    assert s1 == s0 + [0];
    var s2 := SelectedIndexes(2, sel);
    assert s2 == s1;
    assert SelectedIndexes(3, sel) == s2 + [2];
  }

  /** Indexes [0, 2] of a three-sprint series chart sprints 0 and 2 only. */
  lemma PickFirstAndThird(sprints: seq<Sprint>, member1: string, member2: string)
    requires |sprints| == 3
    ensures Comparison(sprints, [0, 2], member1, member2)
      == [ComparisonRow(sprints[0], member1, member2), ComparisonRow(sprints[2], member1, member2)]
  {
    SelectFirstAndThird();
    var r := Comparison(sprints, [0, 2], member1, member2);
    assert |r| == 2;
    assert r[0] == ComparisonRow(sprints[0], member1, member2);
    assert r[1] == ComparisonRow(sprints[2], member1, member2);
  }

  // ---------------------------------------------------------------- meeting cost

  /** `rate * time * participants`: never negative once rate and time are clamped. */
  function SingleMeetingCost(rate: real, time: real, participants: nat): (r: real)
    ensures rate >= 0.0 && time >= 0.0 ==> r >= 0.0
    ensures participants == 0 || rate == 0.0 || time == 0.0 ==> r == 0.0
  {
    rate * time * participants as real
  }

  /**
   * `n = Number(input) || 0; n < 0 ? 0 : n`: an unparsable input (`NaN`) and a
   * negative one both become 0, any other number is kept.
   */
  function ClampInput(parsed: Option<real>): (r: real)
    ensures r >= 0.0
    ensures parsed.Some? && parsed.value >= 0.0 ==> r == parsed.value
    ensures parsed.None? || parsed.value < 0.0 ==> r == 0.0
  {
    var n := if parsed.Some? && parsed.value != 0.0 then parsed.value else 0.0;
    if n < 0.0 then 0.0 else n
  }
}
