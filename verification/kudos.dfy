/**
 * The kudos feed: the form's validation rule and the filtered, newest-first
 * projection of the kudos list.
 */
module KudosFeed {
  import opened Common
  import opened Domain
  import opened Strings

  /** The recognition tags the form and the tag filter offer. */
  const KudosTags: seq<string> :=
    ["Helpfulness", "Pairing", "Innovation", "Above & Beyond", "Kindness", "Great Work"]

  /** The feed filters; a missing (or empty) value leaves that field unconstrained. */
  datatype KudosFilters = KudosFilters(recipient: Option<string>, tag: Option<string>)

  /**
   * The form's submit check: a recipient and a tag are chosen and the message
   * has a character other than white space.
   */
  function CanSubmit(recipient: Option<string>, tag: Option<string>, message: string): (ok: bool)
    ensures ok <==> (recipient.Some? && tag.Some?
      && exists i :: 0 <= i < |message| && !IsJsWhitespace(message[i]))
  {
    TrimEmptyIffBlank(message);
    recipient.Some? && tag.Some? && Trim(message) != ""
  }

  predicate Matches(k: Kudos, f: KudosFilters)
    ensures !Truthy(f.recipient) && !Truthy(f.tag) ==> Matches(k, f)
    ensures Matches(k, f) && Truthy(f.recipient) ==> k.recipient == f.recipient.value
    ensures Matches(k, f) && Truthy(f.tag) ==> k.tag == f.tag.value
  {
    && (!Truthy(f.recipient) || k.recipient == f.recipient.value)
    && (!Truthy(f.tag) || k.tag == f.tag.value)
  }

  /** `kudosList.filter(...)`: every matching record, as often as in the list, in list order. */
  function FilterKudos(items: seq<Kudos>, f: KudosFilters): (r: seq<Kudos>)
    ensures forall x :: multiset(r)[x] == if Matches(x, f) then multiset(items)[x] else 0
    ensures IsSubsequence(r, items)
  {
    if |items| == 0 then []
    else
      var rest := FilterKudos(items[1..], f);
      assert items == [items[0]] + items[1..];
      if Matches(items[0], f) then
        assert ([items[0]] + rest)[1..] == rest;
        assert multiset([items[0]] + rest) == multiset{items[0]} + multiset(rest);
        [items[0]] + rest
      else rest
  }

  /** Non-increasing timestamps: newest first. */
  predicate NewestFirst(s: seq<Kudos>)
  {
    forall i, j :: 0 <= i < j < |s| ==> s[i].timestamp >= s[j].timestamp
  }

  /** The records of `s` with timestamp `t`, in the order of `s`. */
  function At(s: seq<Kudos>, t: int): seq<Kudos>
  {
    if |s| == 0 then []
    else (if s[0].timestamp == t then [s[0]] else []) + At(s[1..], t)
  }

  /** Inserts `x` ahead of the first record no newer than it. */
  function InsertByTime(x: Kudos, s: seq<Kudos>): (r: seq<Kudos>)
    ensures multiset(r) == multiset(s) + multiset{x}
  {
    if |s| == 0 then [x]
    else if s[0].timestamp <= x.timestamp then [x] + s
    else
      assert s == [s[0]] + s[1..];
      [s[0]] + InsertByTime(x, s[1..])
  }

  /** No record of `s` is newer than `b`. */
  predicate NoneNewerThan(s: seq<Kudos>, b: int)
  {
    forall i :: 0 <= i < |s| ==> s[i].timestamp <= b
  }

  /** A record no older than any record of a newest-first list can go in front of it. */
  lemma PrependNewestFirst(x: Kudos, s: seq<Kudos>)
    requires NewestFirst(s) && NoneNewerThan(s, x.timestamp)
    ensures NewestFirst([x] + s)
  {
    var r := [x] + s;
    forall i, j | 0 <= i < j < |r| ensures r[i].timestamp >= r[j].timestamp {
      assert r[j] == s[j - 1];
      if i > 0 {
        assert r[i] == s[i - 1];
      }
    }
  }

  /** The tail of a newest-first list is newest first and no newer than its head. */
  lemma NewestFirstTail(s: seq<Kudos>)
    requires NewestFirst(s) && |s| > 0
    ensures NewestFirst(s[1..]) && NoneNewerThan(s[1..], s[0].timestamp)
  {
    forall i | 0 <= i < |s| - 1 ensures s[1..][i].timestamp <= s[0].timestamp {
      assert s[1..][i] == s[i + 1];
    }
  }

  lemma {:induction false} InsertNoneNewer(x: Kudos, s: seq<Kudos>, b: int)
    requires NoneNewerThan(s, b) && x.timestamp <= b
    ensures NoneNewerThan(InsertByTime(x, s), b)
  {
    if |s| > 0 && s[0].timestamp > x.timestamp {
      InsertNoneNewer(x, s[1..], b);
    }
  }

  lemma {:induction false} InsertKeepsNewestFirst(x: Kudos, s: seq<Kudos>)
    requires NewestFirst(s)
    ensures NewestFirst(InsertByTime(x, s))
  {
    if |s| == 0 {
    } else if s[0].timestamp <= x.timestamp {
      forall i | 0 <= i < |s| ensures s[i].timestamp <= x.timestamp {
      }
      PrependNewestFirst(x, s);
    } else {
      NewestFirstTail(s);
      InsertKeepsNewestFirst(x, s[1..]);
      InsertNoneNewer(x, s[1..], s[0].timestamp);
      PrependNewestFirst(s[0], InsertByTime(x, s[1..]));
    }
  }

  /** Inserting `x` puts it first among the records with its timestamp and moves no other record. */
  lemma {:induction false} InsertAt(x: Kudos, s: seq<Kudos>, t: int)
    ensures At(InsertByTime(x, s), t) == if x.timestamp == t then [x] + At(s, t) else At(s, t)
  {
    if |s| == 0 {
    } else if s[0].timestamp <= x.timestamp {
      assert ([x] + s)[1..] == s;
    } else {
      var tail := InsertByTime(x, s[1..]);
      InsertAt(x, s[1..], t);
      assert ([s[0]] + tail)[1..] == tail;
    }
  }

  /** Inserting the head of a list into an arrangement of its tail arranges each timestamp like the list. */
  lemma InsertAtEvery(x: Kudos, tail: seq<Kudos>, sorted: seq<Kudos>)
    requires forall t :: At(sorted, t) == At(tail, t)
    ensures forall t :: At(InsertByTime(x, sorted), t) == At([x] + tail, t)
  {
    forall t ensures At(InsertByTime(x, sorted), t) == At([x] + tail, t) {
      InsertAt(x, sorted, t);
      assert ([x] + tail)[1..] == tail;
    }
  }

  /**
   * `.sort((a, b) => b.timestamp - a.timestamp)`, a stable sort: newest first,
   * a permutation of the input, and records with equal timestamps keep their
   * relative order.
   */
  function SortNewestFirst(s: seq<Kudos>): (r: seq<Kudos>)
    ensures multiset(r) == multiset(s)
    ensures NewestFirst(r)
    ensures forall t :: At(r, t) == At(s, t)
  {
    if |s| == 0 then []
    else
      var sorted := SortNewestFirst(s[1..]);
      assert s == [s[0]] + s[1..];
      InsertKeepsNewestFirst(s[0], sorted);
      InsertAtEvery(s[0], s[1..], sorted);
      InsertByTime(s[0], sorted)
  }

  /**
   * `filteredKudos`: exactly the matching records, each as often as it is in
   * the list, newest first; records with equal timestamps appear in list order.
   */
  function Project(items: seq<Kudos>, f: KudosFilters): (r: seq<Kudos>)
    ensures forall x :: multiset(r)[x] == if Matches(x, f) then multiset(items)[x] else 0
    ensures NewestFirst(r)
    ensures forall t :: At(r, t) == At(FilterKudos(items, f), t)
  {
    SortNewestFirst(FilterKudos(items, f))
  }

  /** In a newest-first list nothing is newer than its head. */
  lemma {:induction false} NothingNewerThanHead(s: seq<Kudos>, t: int)
    requires NewestFirst(s) && |s| > 0 && t > s[0].timestamp
    ensures At(s, t) == []
  {
    if |s| > 1 {
      assert NewestFirst(s[1..]);
      NothingNewerThanHead(s[1..], t);
    }
  }

  lemma HeadIsAt(s: seq<Kudos>)
    ensures |s| > 0 ==> At(s, s[0].timestamp) != []
  {
  }

  /**
   * Newest first plus the order within each timestamp determine a list: the
   * stable sort is the only result with both.
   */
  lemma {:induction false} StableOrderUnique(a: seq<Kudos>, b: seq<Kudos>)
    requires NewestFirst(a) && NewestFirst(b)
    requires forall t :: At(a, t) == At(b, t)
    ensures a == b
  {
    if |a| == 0 || |b| == 0 {
      // the non-empty one has a record at its head's timestamp, the other none
      if |a| > 0 {
        HeadIsAt(a);
        assert false;
      } else if |b| > 0 {
        HeadIsAt(b);
        assert false;
      }
    } else {
      var ta, tb := a[0].timestamp, b[0].timestamp;
      if ta > tb {
        NothingNewerThanHead(b, ta);
      } else if tb > ta {
        NothingNewerThanHead(a, tb);
      } else {
        assert a[0] == At(a, ta)[0] == At(b, ta)[0] == b[0];
        forall t ensures At(a[1..], t) == At(b[1..], t) {
          assert At(a, t) == At(b, t);
          if t == ta {
            assert At(a, t) == [a[0]] + At(a[1..], t);
            assert At(b, t) == [b[0]] + At(b[1..], t);
            assert At(a[1..], t) == At(a, t)[1..] == At(b, t)[1..] == At(b[1..], t);
          } else {
            assert At(a, t) == At(a[1..], t);
            assert At(b, t) == At(b[1..], t);
          }
        }
        assert NewestFirst(a[1..]) && NewestFirst(b[1..]);
        StableOrderUnique(a[1..], b[1..]);
        assert a == [a[0]] + a[1..] && b == [b[0]] + b[1..];
      }
    }
  }

  /** Any newest-first arrangement of the matching records that keeps list order among equal timestamps is the feed. */
  lemma ProjectIsTheStableSort(items: seq<Kudos>, f: KudosFilters, r: seq<Kudos>)
    requires NewestFirst(r)
    requires forall t :: At(r, t) == At(FilterKudos(items, f), t)
    ensures r == Project(items, f)
  {
    StableOrderUnique(r, Project(items, f));
  }

  /** A list already newest first is left in place by the sort. */
  lemma {:induction false} SortKeepsNewestFirst(s: seq<Kudos>)
    requires NewestFirst(s)
    ensures SortNewestFirst(s) == s
  {
    if |s| > 0 {
      assert NewestFirst(s[1..]);
      SortKeepsNewestFirst(s[1..]);
      if |s| > 1 {
        assert s[1].timestamp <= s[0].timestamp;
      }
    }
  }

  /**
   * When the list is newest first (as prepending fresh records keeps it), the
   * feed is a subsequence of the list.
   */
  lemma ProjectOfNewestFirstList(items: seq<Kudos>, f: KudosFilters)
    requires NewestFirst(items)
    ensures Project(items, f) == FilterKudos(items, f)
    ensures IsSubsequence(Project(items, f), items)
  {
    FilterNewestFirst(items, f);
    SortKeepsNewestFirst(FilterKudos(items, f));
  }

  lemma {:induction false} FilterNoneNewer(items: seq<Kudos>, f: KudosFilters, b: int)
    requires NoneNewerThan(items, b)
    ensures NoneNewerThan(FilterKudos(items, f), b)
  {
    if |items| > 0 {
      FilterNoneNewer(items[1..], f, b);
    }
  }

  lemma {:induction false} FilterNewestFirst(items: seq<Kudos>, f: KudosFilters)
    requires NewestFirst(items)
    ensures NewestFirst(FilterKudos(items, f))
  {
    if |items| > 0 {
      NewestFirstTail(items);
      FilterNewestFirst(items[1..], f);
      if Matches(items[0], f) {
        FilterNoneNewer(items[1..], f, items[0].timestamp);
        PrependNewestFirst(items[0], FilterKudos(items[1..], f));
      }
    }
  }

  /** With no filter set the feed holds the whole list. */
  lemma NoFilterShowsAll(items: seq<Kudos>)
    ensures multiset(Project(items, KudosFilters(None, None))) == multiset(items)
  {
  }
}
