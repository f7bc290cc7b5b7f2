/**
 * The records the dashboard works on: sprints with per-member figures, calendar
 * events carrying a meeting cost, and kudos messages.
 */
module Domain {
  import opened Common

  /** One `[name]: { completed }` entry of a sprint's `members` record. */
  datatype MemberEntry = MemberEntry(name: string, completed: int)

  /**
   * A sprint as the sprints endpoint sends it. `members` is the JSON object as
   * an association list in its key order; a JSON object has distinct keys.
   */
  datatype Sprint = Sprint(
    sprint: string,
    committed: int,
    completed: int,
    bugs: int,
    features: int,
    chores: int,
    members: seq<MemberEntry>)

  /**
   * A calendar event. `day` is the optional pre-bucketed day key; `monthKey` and
   * `yearKey` stand for the event start formatted as `YYYY-MM` and `YYYY`.
   */
  datatype CalendarEvent = CalendarEvent(
    title: string,
    cost: int,
    sprint: string,
    milestone: string,
    day: Option<string>,
    monthKey: string,
    yearKey: string)

  /** A kudos record; `timestamp` is the creation instant as an ordered number. */
  datatype Kudos = Kudos(
    id: int,
    sender: string,
    recipient: string,
    message: string,
    tag: string,
    timestamp: int,
    isAnonymous: bool)

  /** `Object.keys(members)`. */
  function MemberKeys(members: seq<MemberEntry>): (r: seq<string>)
    ensures |r| == |members|
    ensures forall i :: 0 <= i < |members| ==> r[i] == members[i].name
  {
    if |members| == 0 then [] else [members[0].name] + MemberKeys(members[1..])
  }

  /** No name occurs twice: what every JSON object, and so every `members` record, satisfies. */
  predicate DistinctKeys(members: seq<MemberEntry>)
  {
    forall i, j :: 0 <= i < j < |members| ==> members[i].name != members[j].name
  }

  /**
   * `members[name]?.completed`: `None` when the record has no such key; in a
   * record with distinct keys, the value of the one entry for `name`.
   */
  function LookupCompleted(members: seq<MemberEntry>, name: string): (r: Option<int>)
    ensures r.None? <==> name !in MemberKeys(members)
    ensures r.Some? ==> MemberEntry(name, r.value) in members
    ensures DistinctKeys(members) ==>
      forall c :: MemberEntry(name, c) in members ==> r == Some(c)
  {
    if |members| == 0 then None
    else if members[0].name == name then
      assert forall c :: MemberEntry(name, c) in members && DistinctKeys(members) ==> c == members[0].completed by {
        forall c | MemberEntry(name, c) in members && DistinctKeys(members) ensures c == members[0].completed {
          var j :| 0 <= j < |members| && members[j] == MemberEntry(name, c);
          assert j == 0;
        }
      }
      Some(members[0].completed)
    else
      assert forall c :: MemberEntry(name, c) in members ==> MemberEntry(name, c) in members[1..] by {
        forall c | MemberEntry(name, c) in members ensures MemberEntry(name, c) in members[1..] {
          var j :| 0 <= j < |members| && members[j] == MemberEntry(name, c);
          assert members[1..][j - 1] == members[j];
        }
      }
      assert DistinctKeys(members) ==> DistinctKeys(members[1..]);
      LookupCompleted(members[1..], name)
  }
}
