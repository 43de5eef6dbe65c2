/** What the three ride lists share: a status-priority table looked up with
    the lower-cased status (`statusPriority[s?.toLowerCase()] || 99`), the
    stable sort by that priority (`Array.prototype.sort` is stable), and the
    order-preserving filter that selects the rides a view shows, plus the
    badge type of the two driver lists. */
module PrioritySort {
  import opened Rides

  /** A `statusPriority` object: lower-case status to priority. */
  type Priority = map<string, nat>

  /** The priority of a status the table does not list, or of no status. */
  const Unranked: nat := 99

  function LowerChar(c: char): (d: char)
    ensures 'A' <= c <= 'Z' ==> d as int == c as int + 32
    ensures !('A' <= c <= 'Z') ==> d == c
  {
    if 'A' <= c <= 'Z' then (c as int + 32) as char else c
  }

  /** `toLowerCase` on the letters A to Z; every other character is kept. */
  function Lower(s: string): (t: string)
    ensures |t| == |s|
    ensures forall i | 0 <= i < |s| :: t[i] == LowerChar(s[i])
  {
    if s == [] then [] else [LowerChar(s[0])] + Lower(s[1..])
  }

  /** `statusPriority[status?.toLowerCase()] || 99`. */
  function Rank(table: Priority, status: Option<string>): (k: nat)
    ensures status.None? ==> k == Unranked
    ensures status.Some? && Lower(status.value) in table && table[Lower(status.value)] != 0 ==>
              k == table[Lower(status.value)]
    ensures status.Some? && (Lower(status.value) !in table || table[Lower(status.value)] == 0) ==>
              k == Unranked
  {
    match status
    case None => Unranked
    case Some(s) =>
      var key := Lower(s);
      if key in table && table[key] != 0 then table[key] else Unranked
  }

  function RankOf(table: Priority, d: Doc): nat {
    Rank(table, d.ride.status)
  }

  /** Priorities never decrease along `s`. */
  ghost predicate Ordered(table: Priority, s: seq<Doc>) {
    forall i, j | 0 <= i < j < |s| :: RankOf(table, s[i]) <= RankOf(table, s[j])
  }

  /** The rides of `s` whose priority is `k`, in their order in `s`. */
  function WithRank(table: Priority, s: seq<Doc>, k: nat): seq<Doc> {
    if s == [] then []
    else (if RankOf(table, s[0]) == k then [s[0]] else []) + WithRank(table, s[1..], k)
  }

  /** `s.filter(keep)`. */
  function Select(s: seq<Doc>, keep: Doc -> bool): seq<Doc> {
    if s == [] then []
    else (if keep(s[0]) then [s[0]] else []) + Select(s[1..], keep)
  }

  /** Puts `d` in front of the first element of `s` whose priority is not
      below its own. */
  function Insert(table: Priority, d: Doc, s: seq<Doc>): seq<Doc> {
    if s == [] then [d]
    else if RankOf(table, d) <= RankOf(table, s[0]) then [d] + s
    else [s[0]] + Insert(table, d, s[1..])
  }

  /** `s.sort((a, b) => rank(a) - rank(b))`, stable. */
  function SortByPriority(table: Priority, s: seq<Doc>): seq<Doc> {
    if s == [] then [] else Insert(table, s[0], SortByPriority(table, s[1..]))
  }

  /** `a.sort((x, y) => rank(x) - rank(y))` on the array itself: afterwards
      it holds the stable sort of what it held before. */
  method SortInPlace(table: Priority, a: array<Doc>)
    modifies a
    ensures a[..] == SortByPriority(table, old(a[..]))
  {
    var sorted := SortByPriority(table, a[..]);
    SortLength(table, a[..]);
    for i := 0 to a.Length
      invariant forall k | 0 <= k < i :: a[k] == sorted[k]
    {
      a[i] := sorted[i];
    }
    assert a[..] == sorted;
  }

  // ---------------------------------------------------------------------
  // Lemmas

  /** A rank lookup sees the status only through its lower-cased form. */
  lemma {:induction false} RankIgnoresCase(table: Priority, s: string)
    ensures Rank(table, Some(s)) == Rank(table, Some(Lower(s)))
  {
    LowerIdempotent(s);
  }

  lemma {:induction false} LowerIdempotent(s: string)
    ensures Lower(Lower(s)) == Lower(s)
  {
    if s != [] {
      LowerIdempotent(s[1..]);
      assert Lower(s)[1..] == Lower(s[1..]);
    }
  }

  lemma {:induction false} InsertPermutation(table: Priority, d: Doc, s: seq<Doc>)
    ensures multiset(Insert(table, d, s)) == multiset(s) + multiset{d}
  {
    if s != [] && RankOf(table, d) > RankOf(table, s[0]) {
      InsertPermutation(table, d, s[1..]);
      assert s == [s[0]] + s[1..];
    }
  }

  lemma {:induction false} SortPermutation(table: Priority, s: seq<Doc>)
    ensures multiset(SortByPriority(table, s)) == multiset(s)
  {
    if s != [] {
      SortPermutation(table, s[1..]);
      InsertPermutation(table, s[0], SortByPriority(table, s[1..]));
      assert s == [s[0]] + s[1..];
    }
  }

  /** The sort keeps the number of rides. */
  lemma SortLength(table: Priority, s: seq<Doc>)
    ensures |SortByPriority(table, s)| == |s|
  {
    SortPermutation(table, s);
    assert |SortByPriority(table, s)| == |multiset(SortByPriority(table, s))|;
  }

  lemma {:induction false} InsertMembers(table: Priority, d: Doc, s: seq<Doc>, x: Doc)
    ensures x in Insert(table, d, s) <==> x == d || x in s
  {
    InsertPermutation(table, d, s);
    assert x in Insert(table, d, s) <==> x in multiset(Insert(table, d, s));
    assert x in s <==> x in multiset(s);
  }

  lemma OrderedTail(table: Priority, s: seq<Doc>)
    requires s != [] && Ordered(table, s)
    ensures Ordered(table, s[1..])
  {
    forall i, j | 0 <= i < j < |s[1..]| ensures RankOf(table, s[1..][i]) <= RankOf(table, s[1..][j]) {
      assert s[1..][i] == s[i + 1] && s[1..][j] == s[j + 1];
    }
  }

  lemma OrderedCons(table: Priority, x: Doc, t: seq<Doc>)
    requires Ordered(table, t)
    requires forall y | y in t :: RankOf(table, x) <= RankOf(table, y)
    ensures Ordered(table, [x] + t)
  {
    var r := [x] + t;
    forall i, j | 0 <= i < j < |r| ensures RankOf(table, r[i]) <= RankOf(table, r[j]) {
      assert r[j] == t[j - 1] && r[j] in t;
      if i > 0 {
        assert r[i] == t[i - 1];
      }
    }
  }

  lemma {:induction false} InsertOrdered(table: Priority, d: Doc, s: seq<Doc>)
    requires Ordered(table, s)
    ensures Ordered(table, Insert(table, d, s))
  {
    if s == [] {
    } else if RankOf(table, d) <= RankOf(table, s[0]) {
      forall y | y in s ensures RankOf(table, d) <= RankOf(table, y) {
        var j :| 0 <= j < |s| && s[j] == y;
        assert j == 0 || RankOf(table, s[0]) <= RankOf(table, s[j]);
      }
      OrderedCons(table, d, s);
    } else {
      OrderedTail(table, s);
      InsertOrdered(table, d, s[1..]);
      var t := Insert(table, d, s[1..]);
      forall y | y in t ensures RankOf(table, s[0]) <= RankOf(table, y) {
        InsertMembers(table, d, s[1..], y);
        if y != d {
          var j :| 0 <= j < |s[1..]| && s[1..][j] == y;
          assert s[j + 1] == y;
        }
      }
      OrderedCons(table, s[0], t);
    }
  }

  lemma {:induction false} SortOrdered(table: Priority, s: seq<Doc>)
    ensures Ordered(table, SortByPriority(table, s))
  {
    if s != [] {
      SortOrdered(table, s[1..]);
      InsertOrdered(table, s[0], SortByPriority(table, s[1..]));
    }
  }

  lemma {:induction false} WithRankCons(table: Priority, d: Doc, s: seq<Doc>, k: nat)
    ensures WithRank(table, [d] + s, k)
            == (if RankOf(table, d) == k then [d] else []) + WithRank(table, s, k)
  {
    assert ([d] + s)[1..] == s;
  }

  /** Inserting puts `d` before every element of its own priority and keeps
      the order among the others. */
  lemma {:induction false} InsertStable(table: Priority, d: Doc, s: seq<Doc>, k: nat)
    ensures WithRank(table, Insert(table, d, s), k)
            == (if RankOf(table, d) == k then [d] else []) + WithRank(table, s, k)
  {
    if s == [] {
      WithRankCons(table, d, [], k);
    } else if RankOf(table, d) <= RankOf(table, s[0]) {
      WithRankCons(table, d, s, k);
    } else {
      InsertStable(table, d, s[1..], k);
      WithRankCons(table, s[0], Insert(table, d, s[1..]), k);
      assert s == [s[0]] + s[1..];
      WithRankCons(table, s[0], s[1..], k);
    }
  }

  /** Within each priority the sort keeps the input order. */
  lemma {:induction false} SortStable(table: Priority, s: seq<Doc>, k: nat)
    ensures WithRank(table, SortByPriority(table, s), k) == WithRank(table, s, k)
  {
    if s != [] {
      SortStable(table, s[1..], k);
      InsertStable(table, s[0], SortByPriority(table, s[1..]), k);
    }
  }

  lemma {:induction false} SelectMembers(s: seq<Doc>, keep: Doc -> bool)
    ensures forall d :: d in Select(s, keep) <==> d in s && keep(d)
    ensures multiset(Select(s, keep)) <= multiset(s)
    ensures forall d :: multiset(Select(s, keep))[d] == if keep(d) then multiset(s)[d] else 0
  {
    if s != [] {
      SelectMembers(s[1..], keep);
      assert s == [s[0]] + s[1..];
    }
  }

  lemma {:induction false} SelectCons(d: Doc, s: seq<Doc>, keep: Doc -> bool)
    ensures Select([d] + s, keep) == (if keep(d) then [d] else []) + Select(s, keep)
  {
    assert ([d] + s)[1..] == s;
  }

  /** Filtering and picking one priority commute. */
  lemma {:induction false} WithRankSelect(table: Priority, s: seq<Doc>, keep: Doc -> bool, k: nat)
    ensures WithRank(table, Select(s, keep), k) == Select(WithRank(table, s, k), keep)
  {
    if s != [] {
      WithRankSelect(table, s[1..], keep, k);
      if keep(s[0]) {
        assert Select(s, keep) == [s[0]] + Select(s[1..], keep);
        WithRankCons(table, s[0], Select(s[1..], keep), k);
      } else {
        assert Select(s, keep) == Select(s[1..], keep);
      }
      if RankOf(table, s[0]) == k {
        assert WithRank(table, s, k) == [s[0]] + WithRank(table, s[1..], k);
        SelectCons(s[0], WithRank(table, s[1..], k), keep);
      } else {
        assert WithRank(table, s, k) == WithRank(table, s[1..], k);
      }
    }
  }

  /** What every ride list promises about `Select(s, keep)` sorted by
      priority: it holds exactly the selected rides, each as often as in
      `s`; priorities never decrease; and the rides of one priority appear
      in the order of `s`. */
  lemma SortedSelection(table: Priority, s: seq<Doc>, keep: Doc -> bool)
    ensures var r := SortByPriority(table, Select(s, keep));
            && multiset(r) == multiset(Select(s, keep))
            && (forall d :: d in r <==> d in s && keep(d))
            && Ordered(table, r)
            && (forall k :: WithRank(table, r, k) == Select(WithRank(table, s, k), keep))
  {
    var r := SortByPriority(table, Select(s, keep));
    SortPermutation(table, Select(s, keep));
    SelectMembers(s, keep);
    forall d ensures d in r <==> d in Select(s, keep) {
      assert d in r <==> d in multiset(r);
    }
    SortOrdered(table, Select(s, keep));
    forall k ensures WithRank(table, r, k) == Select(WithRank(table, s, k), keep) {
      SortStable(table, Select(s, keep), k);
      WithRankSelect(table, s, keep, k);
    }
  }

  /** A status badge of the driver's lists: its CSS class and its label. */
  datatype Badge = Badge(className: string, text: string)

  /** The badge both driver lists show for a status they do not name. */
  const UnknownBadge := Badge("badge status-badge", "❔ Unknown")

  /** `status?.toLowerCase()`. */
  function LowerStatus(status: Option<string>): Option<string> {
    match status
    case None => None
    case Some(s) => Some(Lower(s))
  }
}
