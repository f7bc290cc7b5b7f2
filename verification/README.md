# RetroBuddy dashboard — a Dafny model

RetroBuddy is a team-retrospective dashboard. Its single React component,
`RetroBuddyDashboard`, loads the sprint history and the calendar of meetings.
From them it derives these charts:

- a velocity chart (committed against completed points, for the team or one member);
- a work-breakdown pie for one chosen sprint;
- a member-comparison chart over chosen sprints;
- a meeting-cost bar chart bucketed by day, month or year and filtered by sprint or milestone;
- a "latest sprint insights" card.

It also keeps a kudos feed, a list of recognition messages that a form prepends to and two filters narrow.

This project models that component:

- The records are datatypes (module `Domain`).
- The derived charts are pure functions with contracts and lemmas (modules `Views`, `Costs`, `KudosFeed`).
- The cost aggregation is a method with a map accumulator, proved against sum functions (module `Costs`).
- The component state is the class `Dashboard.RetroBuddyDashboard`. Its fields are the React state variables, and its load step and change handlers are methods.
- The kudos form is the class `Dashboard.KudosForm`.

The JavaScript semantics the code relies on are modelled literally:

- **Truthiness** of `||` and `!`: an empty string counts as unset (`Common.Truthy`, `Common.OrElse`).
- **`??`**: only a missing value falls back.
- **String `<`** is lexicographic (`Strings.Less`).
- **`[...new Set(xs)].sort()`** is `Strings.DistinctSorted`.
- **`String.prototype.trim`** strips the JavaScript white-space set (`Strings.Trim`).
- **Object-literal overwrite** of equal computed keys: `Views.ComparisonRow` returns a map.
- **`Array.prototype.sort`** is stable, so the kudos feed is specified as the unique stable newest-first order.

Sprint `members` records are association lists kept in key order.

## Model

| member | source | states |
|---|---|---|
| Domain.MemberKeys | src/App.tsx:124 | `Object.keys(members)` lists the member names in record order, one per entry |
| Domain.LookupCompleted | src/App.tsx:150 | `members[name]?.completed` is absent exactly when the record has no such key; when present it is an entry of that key, and in a record without repeated names it is that key's unique entry |
| Views.Members | src/App.tsx:140 | the member list is empty without sprints, otherwise the first sprint's member keys in order, without repeats when the record's names are distinct |
| Views.Velocity | src/App.tsx:150 | one point per sprint in series order with label and `committed` copied; `completed` is the team figure without a member filter, the member's entry with one, 0 when the sprint lacks the member |
| Views.VelocityMemberFigure | src/App.tsx:150 | with a member filter, each sprint's point carries that member's unique entry in the record |
| Views.SprintForPie | src/App.tsx:147 | the pie sprint exists exactly when the index is set and in range, and is then `sprints[index]` |
| Views.PieData | src/App.tsx:147-148 | empty exactly when the index is unset or out of range; otherwise exactly Bugs, Features, Chores of that sprint in that order |
| Views.LatestSprint | src/App.tsx:149 | no sprint for an empty series, else the last one |
| Views.Shown | src/App.tsx:238-244 | the displayed bullets are exactly the listed ones whose condition holds |
| Views.ShownKeepsOrder | src/App.tsx:238-244 | the displayed bullets keep the card's display order |
| Views.SprintInsights | src/App.tsx:238-244 | each of the six notes appears iff its threshold holds (completed below 0.7 of committed; completed at least committed; bugs above 10; bugs 1 to 5; features below 15 with completed above 0; features at least 15); the suggestion always appears; display order kept |
| Views.Insights | src/App.tsx:235-244 | no card without sprints; otherwise the latest sprint's notes, which always include the suggestion |
| Views.InsightsDependOnLatestOnly | src/App.tsx:149 | the card depends only on the last sprint of the series |
| Views.BugNoteGap | src/App.tsx:240-241 | bug counts 6 to 10 get neither bug note |
| Views.CompletionNotesExclusive | src/App.tsx:238-239 | with a non-negative commitment the low-completion and commitment-met notes never both appear |
| Views.FeatureNotesExactlyOne | src/App.tsx:242-243 | a sprint that completed something gets exactly one feature note |
| Views.HalfCompletedSprintWarns | src/App.tsx:238-239 | 5 of 10 committed gives the low-completion warning and no commitment note |
| Views.SeriesValue | src/App.tsx:151 | the value for key "Team" is the team's completed points, else the member's entry (the unique one in a record without repeated names), else 0 |
| Views.ComparisonRow | src/App.tsx:151 | a row has exactly the keys sprint, member1 and member2; member2's value wins on a key collision; member1's value stands when the keys differ |
| Views.SameMemberSingleSeries | src/App.tsx:151 | choosing the same member twice yields a single series key |
| Views.TeamKeyShadowsMember | src/App.tsx:143 | a member literally named "Team" is charted as the whole team |
| Views.SelectedIndexes | src/App.tsx:151 | the chosen indexes below n, strictly ascending, each chosen, and every chosen in-range index present |
| Views.FilterByIndex | src/App.tsx:151 | the chosen sprints in series order, one per selected index |
| Views.Comparison | src/App.tsx:151 | one row per selected sprint, in series order, built by `ComparisonRow` |
| Views.SelectionOrderIrrelevant | src/App.tsx:151 | only the set of chosen indexes matters, not their order or repetition |
| Views.Range | src/App.tsx:123 | `sprints.map((_, index) => index)` holds 0 to n-1 in order |
| Views.SelectAllIndexes | src/App.tsx:123 | selecting every index selects every sprint in order |
| Views.PickFirstAndThird | src/App.tsx:151 | of three sprints, choosing [0, 2] charts sprints 0 and 2 only |
| Views.SingleMeetingCost | src/App.tsx:153 | the cost is non-negative for non-negative rate and time, and 0 when any factor is 0 |
| Views.ClampInput | src/App.tsx:162-163 | the stored rate or time is never negative; a non-negative number is kept; an unparsable or negative input becomes 0 |
| Strings.LessIrreflexive | src/App.tsx:156 | the string order used by the sorts is irreflexive |
| Strings.LessTransitive | src/App.tsx:156 | the string order is transitive |
| Strings.LessTotal | src/App.tsx:156 | any two distinct strings are ordered one way |
| Strings.InsertSorted | src/App.tsx:156 | inserting into an ascending list keeps it strictly ascending and adds exactly the new key |
| Strings.DistinctSorted | src/App.tsx:130 | `[...new Set(xs)].sort()` is strictly ascending and holds exactly the values of xs |
| Strings.DistinctSortedHeadIsLeast | src/App.tsx:131 | its first element is a value of xs and less than every other value |
| Strings.Trim | src/App.tsx:79 | the trimmed message is the message with only white space cut off in front and behind, and it neither starts nor ends with white space |
| Strings.TrimEmptyIffBlank | src/App.tsx:79 | a message trims to empty exactly when every character is white space |
| Costs.PeriodKey | src/App.tsx:156 | the bucket of an event is its day by day, its month key by month, and its year key for any other period |
| Costs.DayFallback | src/App.tsx:156 | a missing day buckets as "Unk", an empty day stays "" |
| Costs.Survivors | src/App.tsx:156 | the kept events are exactly those matching the active filter dimension only, each as often as in the list, in list order |
| Costs.SumForSurvivors | src/App.tsx:156 | summing a bucket over the kept events counts exactly the matching events of that bucket |
| Costs.KeysOfMembers | src/App.tsx:156 | a key is a bucket exactly when some event falls into it |
| Costs.SumOverAllKeys | src/App.tsx:156 | over distinct keys covering every bucket, the bucket sums add up to the total cost |
| Costs.SumByPeriod | src/App.tsx:156 | the reduce yields a record whose keys are exactly the buckets and whose values are the bucket sums |
| Costs.BucketsOfSurvivors | src/App.tsx:156 | a bucket of the kept events is exactly a key that some event passing the filter falls into |
| Costs.ToPoints | src/App.tsx:156 | one bar per sorted key, in key order, each with its bucket sum; the bars add up to the sum over those keys |
| Costs.SortedKeys | src/App.tsx:156 | the sorted keys are strictly ascending and exactly the record's keys; an empty record gives none |
| Costs.ChartOfBuckets | src/App.tsx:156 | bars over the sorted buckets of the kept events, each with its bucket sum, form the chart `AggregateCosts` promises |
| Costs.AggregateCosts | src/App.tsx:156 | periods distinct and ascending; a period exists iff a kept event falls in it; each cost is its bucket's sum of kept events; the bars add up to the kept events' total; no kept events gives no bars |
| KudosFeed.CanSubmit | src/App.tsx:79 | submission is allowed iff a recipient and a tag are chosen and the message has a non-white-space character |
| KudosFeed.Matches | src/App.tsx:157 | with neither filter set every record matches; a set recipient or tag filter only lets through records with that recipient or tag |
| KudosFeed.FilterKudos | src/App.tsx:157 | keeps each matching record as often as in the list and no other, as a subsequence of the list |
| KudosFeed.InsertKeepsNewestFirst | src/App.tsx:157 | one insertion step of the sort keeps the list newest first |
| KudosFeed.InsertAt | src/App.tsx:157 | an insertion step puts the record first among its timestamp and moves no other record relative to its timestamp-mates |
| KudosFeed.SortNewestFirst | src/App.tsx:157 | the sort is a permutation, newest first, and keeps list order among equal timestamps |
| KudosFeed.Project | src/App.tsx:157 | the feed shows exactly the matching records with their multiplicities, newest first, ties in list order |
| KudosFeed.StableOrderUnique | src/App.tsx:157 | newest-first order plus the order within each timestamp determine the list |
| KudosFeed.ProjectIsTheStableSort | src/App.tsx:157 | any newest-first arrangement of the matching records that keeps list order among ties is the feed |
| KudosFeed.SortKeepsNewestFirst | src/App.tsx:157 | a list already newest first is left as it is |
| KudosFeed.FilterNewestFirst | src/App.tsx:157 | filtering a newest-first list keeps it newest first |
| KudosFeed.ProjectOfNewestFirstList | src/App.tsx:157 | for a newest-first list the feed is the filtered list, a subsequence of it |
| KudosFeed.NoFilterShowsAll | src/App.tsx:157 | with no filter set the feed holds every record |
| Dashboard.InitialKudosNewestFirst | src/App.tsx:52-57 | the seed kudos are newest first |
| Dashboard.InitialKudosTagged | src/App.tsx:41-57 | every seed kudos carries one of the six recognition tags |
| Dashboard.PrependKeepsNewestFirst | src/App.tsx:171 | prepending a record no older than the head keeps the list newest first |
| Dashboard.FilterValue | src/App.tsx:86 | an empty or missing filter selection is sent as unset; a set one is kept |
| Dashboard.FilterValueKeepsMatches | src/App.tsx:86 | sending an empty selection as unset keeps the same records in the feed |
| Dashboard.Labels | src/App.tsx:130 | `events.map(e => e.sprint)` (or `e.milestone`): one label per event, in order, and a value is a label exactly when some event carries it |
| Dashboard.FilterOptions | src/App.tsx:145-146 | the sprint or milestone filter options are ascending without repeats and are exactly the labels the events carry |
| Dashboard.FilterOptionsHeadIsLeast | src/App.tsx:130-131 | with at least one event the first option exists, is an event's label, and is less than every other label |
| Dashboard.DefaultMember1 | src/App.tsx:117-125 | the first default is the first member, or "Alice" without members |
| Dashboard.DefaultMember2 | src/App.tsx:117-125 | the second default is the second member, "Team" with one member, or "Bob" without members |
| Dashboard.SprintsLoaded | src/App.tsx:121-126 | the sprints are stored; with no sprints both selections stay; otherwise the pie shows the last sprint |
| Dashboard.SprintsLoadedKeepsTheRest | src/App.tsx:121-126 | only the sprints, both selections and the two members change; with no sprints the members become "Alice" and "Bob" and nothing else but the sprints changes |
| Dashboard.InitialMembers | src/App.tsx:117-125 | the load's fallback chain yields the default comparison members of the first sprint's member keys |
| Dashboard.EventsLoaded | src/App.tsx:128-131 | only the events and the two cost filters change; no events changes only the events; otherwise each filter is a label some event carries |
| Dashboard.SprintsLoadedSelectsAll | src/App.tsx:122-123 | after a load with sprints, the comparison charts every sprint and the pie shows the latest |
| Dashboard.DefaultComparisonMembers | src/App.tsx:117-126 | after the sprints load, member1 is the first sprint's first member, or "Alice" without sprints or members; member2 its second member, "Team" with one member, or "Bob"; with distinct names and two or more members the defaults differ |
| Dashboard.EventsLoadedFiltersLeast | src/App.tsx:130-131 | after loading events, each cost filter is a label of its dimension and less than every other label |
| Dashboard.DefaultFilterKeepsAnEvent | src/App.tsx:130-131 | with the default filters, at least one event survives in either filter mode |
| Dashboard.RetroBuddyDashboard.constructor | src/App.tsx:93-110 | every state variable starts at its initial value, with the seed kudos and the current user "Entire Team" |
| Dashboard.RetroBuddyDashboard.MemberList | src/App.tsx:140 | the members are the first stored sprint's member keys in order, none without sprints |
| Dashboard.RetroBuddyDashboard.VelocityData | src/App.tsx:150 | one point per stored sprint with its label and commitment; completed is the team figure without a member filter, the member's entry with one, 0 when the sprint lacks the member |
| Dashboard.RetroBuddyDashboard.PieSlices | src/App.tsx:147-148 | no slices exactly when the stored pie index is unset or out of range; otherwise Bugs, Features, Chores of that sprint |
| Dashboard.RetroBuddyDashboard.InsightList | src/App.tsx:149 | no card without sprints; otherwise the latest stored sprint's notes, always with the suggestion |
| Dashboard.RetroBuddyDashboard.MemberComparisonData | src/App.tsx:151 | one row per selected stored sprint in series order, each the comparison row of the stored members |
| Dashboard.RetroBuddyDashboard.CostSelection | src/App.tsx:156 | the cost chart buckets by the stored period, and an event survives exactly when it matches the stored filter of the active dimension |
| Dashboard.RetroBuddyDashboard.FilteredKudos | src/App.tsx:157 | the feed holds exactly the stored kudos matching the stored filters, with their multiplicities, newest first, ties in list order |
| Dashboard.RetroBuddyDashboard.MeetingCost | src/App.tsx:152-154 | with the clamped inputs the meeting cost is never negative, and 0 without members |
| Dashboard.RetroBuddyDashboard.AggregatedCostChartData | src/App.tsx:156 | the cost chart of the current events and selection: periods ascending; a period exists iff a kept event falls in it; each bar is its bucket's sum of kept events; the bars add up to the kept events' total; no kept events gives no bars |
| Dashboard.RetroBuddyDashboard.Load | src/App.tsx:116-131 | a rejected request or failed sprints response sets only the error flag; a failed events response keeps the sprint defaults and sets the flag; a full load stores both and all defaults |
| Dashboard.RetroBuddyDashboard.StoreSprints | src/App.tsx:121-126 | stores the sprints, selects every sprint and the last for the pie when there are any, and sets the default members |
| Dashboard.RetroBuddyDashboard.SelectLoadedSprints | src/App.tsx:121-123 | stores the sprints and, when there are any, selects every sprint and the last one for the pie; nothing else changes |
| Dashboard.RetroBuddyDashboard.StoreEvents | src/App.tsx:128-131 | stores the events and sets each cost filter to its least label when there is one |
| Dashboard.RetroBuddyDashboard.HandleMemberVelocityChange | src/App.tsx:161 | stores the chosen member, or unset for an empty or cleared choice; nothing else changes |
| Dashboard.RetroBuddyDashboard.HandleRateChange | src/App.tsx:162 | stores the clamped rate, keeps the state valid; nothing else changes |
| Dashboard.RetroBuddyDashboard.HandleTimeChange | src/App.tsx:163 | stores the clamped time, keeps the state valid; nothing else changes |
| Dashboard.RetroBuddyDashboard.HandlePeriodChange | src/App.tsx:164 | stores the chosen period, "day" when cleared |
| Dashboard.RetroBuddyDashboard.HandleFilterTypeChange | src/App.tsx:165 | stores the chosen filter mode, "sprint" when cleared |
| Dashboard.RetroBuddyDashboard.HandleSprintFilterChange | src/App.tsx:166 | stores the chosen sprint, "" when cleared; a cleared filter in sprint mode then keeps exactly the events whose sprint is "" |
| Dashboard.RetroBuddyDashboard.HandleMilestoneFilterChange | src/App.tsx:167 | stores the chosen milestone, "" when cleared |
| Dashboard.RetroBuddyDashboard.HandleSprintSelectionChange | src/App.tsx:168 | stores the chosen indexes, none when cleared |
| Dashboard.RetroBuddyDashboard.HandleMember1Change | src/App.tsx:169 | stores the first comparison key, "" when cleared |
| Dashboard.RetroBuddyDashboard.HandleMember2Change | src/App.tsx:170 | stores the second comparison key, "" when cleared |
| Dashboard.RetroBuddyDashboard.HandleKudosSubmit | src/App.tsx:171 | the list grows by one, the new record at the head, the older records after it unchanged and in order |
| Dashboard.RetroBuddyDashboard.HandleKudosFilterChange | src/App.tsx:172 | stores the filters; nothing else changes |
| Dashboard.RetroBuddyDashboard.HandlePieSprintChange | src/App.tsx:173 | stores the chosen pie index, unset when cleared |
| Dashboard.KudosForm.constructor | src/App.tsx:78 | the form starts with no recipient, no tag, an empty message, not anonymous |
| Dashboard.KudosForm.SetRecipient | src/App.tsx:78-80 | stores the chosen recipient; the other fields keep their values |
| Dashboard.KudosForm.SetTag | src/App.tsx:78-80 | stores the chosen tag, one of the recognition tags or none; the other fields keep their values |
| Dashboard.KudosForm.SetMessage | src/App.tsx:78-80 | stores the typed message; the other fields keep their values |
| Dashboard.KudosForm.SetAnonymous | src/App.tsx:78-80 | stores the anonymity flag; the other fields keep their values |
| Dashboard.KudosForm.Clear | src/App.tsx:79 | the form returns to no recipient, no tag, an empty message, not anonymous |
| Dashboard.KudosForm.HandleSubmit | src/App.tsx:79 | rejected exactly when recipient or tag is unset or the message is blank, changing nothing; otherwise prepends a record sent by the dashboard's current user ("Entire Team") with the form's fields, tagged with a recognition tag, and clears the form |

## Left out

- Fetching, `Promise.all`, HTTP status codes and JSON parsing: `Load` takes each response as an outcome, one of network error, HTTP error or a parsed body. A malformed body, the loading flag and the error message text are not modelled; the error is a flag.
- `moment` formatting and `new Date(start)`: an event carries its month key (`YYYY-MM`) and year key (`YYYY`) as fields.
- `Date.now()` as the kudos id and `new Date()` as its timestamp: both are parameters. Ids are not claimed unique or increasing, because the code does not ensure it.
- Kudos timestamps are ordered integers, not `Date` objects; the seed data writes them as YYYYMMDDhhmm.
- JavaScript numbers are floating point. Rates and times are exact reals and points and costs are integers, so rounding and `NaN` propagation are not modelled.
- `Number(text)` parsing is not modelled: the rate and time handlers take the parsed number, or none for `NaN`.
- String order compares Unicode code points, while JavaScript compares UTF-16 code units; the two differ only above U+FFFF.
- `Object.keys` puts integer-like keys first in numeric order. Members and cost buckets keep insertion order or sorted order instead.
- The cost reduce accumulates into a plain object `{}` that inherits from `Object.prototype`. The model gives every day key an ordinary bucket sum, but the code behaves differently for inherited property names:
  - A day key `"__proto__"` never becomes a bucket.
  - Keys such as `"constructor"`, `"toString"` or `"valueOf"` start from the inherited function, so the bar's cost becomes a string.
- A sprint whose `members` field is missing is not modelled; `members` is always a list.
- A `members` list may repeat a name, which a parsed JSON object cannot. For such a list `LookupCompleted` takes the first entry where `JSON.parse` keeps the last, and `Members` lists the name twice. The statements that pin a member's unique entry or give distinct defaults assume distinct names (`Domain.DistinctKeys`).
- `Dashboard.KudosForm.SetTag` accepts only a recognition tag or none, because the tag select offers only `kudosTagOptions`; arbitrary select input is not modelled.
- The KudosFilters component's own select state is not modelled; only the normalisation it applies (`FilterValue`) is.
- Rendering, the option lists fed to the selects, the pie labels, the charts, `alert` and `console` calls, and the meeting-cost message whose display is commented out.
- src/main.tsx (the React bootstrap) is not part of this model.
- On these points the model follows the code, where a reader might expect otherwise:
  - A failed events response leaves the sprint data and defaults in place.
  - An empty `day` string is its own bucket, not "Unk".
  - A cleared sprint filter matches only events with an empty sprint label.
  - Equal comparison keys collide in the row.
