/** The read side of the canister log (`get_log_messages` in logger.rs): a
    pipeline over a copy of the buffer that keeps the matching entries, takes
    the first `count` of them in buffer order, and only then sorts them
    newest first. */
module LogQuery {
  import opened Common

  datatype LogMessageData = LogMessageData(timeNanos: U64, message: string)

  datatype GetLogMessagesFilter = GetLogMessagesFilter(messageContains: Option<string>, messageRegex: Option<string>)

  datatype GetLogMessagesParameters = GetLogMessagesParameters(
    count: U32,
    filter: Option<GetLogMessagesFilter>,
    fromTimeNanos: Option<U64>)

  datatype CanisterLogMessages = CanisterLogMessages(
    data: seq<LogMessageData>,
    lastAnalyzedMessageTimeNanos: Option<U64>)

  predicate OccursAt(s: string, needle: string, i: int) {
    0 <= i && i + |needle| <= |s| && s[i..i + |needle|] == needle
  }

  /** `str::contains`: `needle` occurs somewhere in `s` (the empty needle everywhere). */
  function Contains(s: string, needle: string): (b: bool)
    ensures b <==> exists i :: OccursAt(s, needle, i)
  {
    if |needle| <= |s| && s[..|needle|] == needle then
      assert OccursAt(s, needle, 0);
      true
    else if s == [] then
      assert forall i :: !OccursAt(s, needle, i);
      false
    else
      var rest := Contains(s[1..], needle);
      assert forall i :: OccursAt(s[1..], needle, i) ==> OccursAt(s, needle, i + 1);
      assert forall i :: OccursAt(s, needle, i) && i > 0 ==> OccursAt(s[1..], needle, i - 1);
      rest
  }

  /** The filter closure: at or after `fromTimeNanos` when given, and containing
      `messageContains` when given. `messageRegex` is not consulted. */
  predicate Matches(item: LogMessageData, param: GetLogMessagesParameters) {
    && (param.fromTimeNanos.Some? ==> item.timeNanos >= param.fromTimeNanos.value)
    && (param.filter.Some? && param.filter.value.messageContains.Some? ==>
          Contains(item.message, param.filter.value.messageContains.value))
  }

  /** The matching entries, in buffer order. */
  function FilterMatching(q: seq<LogMessageData>, param: GetLogMessagesParameters): (r: seq<LogMessageData>)
    ensures |r| <= |q|
    ensures forall x {:trigger multiset(r)[x]} :: multiset(r)[x] == if Matches(x, param) then multiset(q)[x] else 0
    ensures forall x {:trigger x in r} :: x in r <==> x in q && Matches(x, param)
  {
    if q == [] then []
    else
      assert q == [q[0]] + q[1..];
      (if Matches(q[0], param) then [q[0]] else []) + FilterMatching(q[1..], param)
  }

  /** The filter keeps buffer order: filtering a concatenation filters each part. */
  lemma {:induction false} FilterMatchingAppend(a: seq<LogMessageData>, b: seq<LogMessageData>, param: GetLogMessagesParameters)
    ensures FilterMatching(a + b, param) == FilterMatching(a, param) + FilterMatching(b, param)
  {
    if a == [] {
      assert a + b == b;
    } else {
      assert (a + b)[0] == a[0];
      assert (a + b)[1..] == a[1..] + b;
      FilterMatchingAppend(a[1..], b, param);
    }
  }

  /** `Iterator::take`. */
  function TakeFirst<T>(s: seq<T>, n: nat): (r: seq<T>)
    ensures |r| == if |s| <= n then |s| else n
    ensures r <= s
  {
    if |s| <= n then s else s[..n]
  }

  predicate SortedNewestFirst(s: seq<LogMessageData>) {
    forall i, j :: 0 <= i < j < |s| ==> s[i].timeNanos >= s[j].timeNanos
  }

  /** Inserts `x` before the first entry that is not newer than it. */
  function InsertNewestFirst(x: LogMessageData, s: seq<LogMessageData>): (r: seq<LogMessageData>)
    requires SortedNewestFirst(s)
    ensures SortedNewestFirst(r)
    ensures multiset(r) == multiset(s) + multiset{x}
  {
    if s == [] || x.timeNanos >= s[0].timeNanos then
      SortedCons(x, s);
      [x] + s
    else
      var tail := InsertNewestFirst(x, s[1..]);
      assert s == [s[0]] + s[1..];
      HeadBoundsInsert(s, x, tail);
      SortedCons(s[0], tail);
      [s[0]] + tail
  }

  /** The head of a sorted list is at least as new as anything inserted behind it. */
  lemma HeadBoundsInsert(s: seq<LogMessageData>, x: LogMessageData, tail: seq<LogMessageData>)
    requires SortedNewestFirst(s) && s != [] && x.timeNanos < s[0].timeNanos
    requires multiset(tail) == multiset(s[1..]) + multiset{x}
    ensures forall y :: y in tail ==> s[0].timeNanos >= y.timeNanos
  {
    forall y | y in tail
      ensures s[0].timeNanos >= y.timeNanos
    {
      assert y in multiset(tail);
      if y != x {
        assert y in multiset(s[1..]);
        var j :| 0 <= j < |s[1..]| && s[1..][j] == y;
        assert s[j + 1] == y;
      }
    }
  }

  lemma SortedCons(h: LogMessageData, t: seq<LogMessageData>)
    requires SortedNewestFirst(t)
    requires forall y :: y in t ==> h.timeNanos >= y.timeNanos
    ensures SortedNewestFirst([h] + t)
  {
    var s := [h] + t;
    forall i, j | 0 <= i < j < |s|
      ensures s[i].timeNanos >= s[j].timeNanos
    {
      assert s[j] == t[j - 1];
      if i > 0 {
        assert s[i] == t[i - 1];
      }
    }
  }

  /** The `sort_by` of `get_log_messages`: non-increasing `timeNanos`; entries
      with equal times keep their relative order, as a stable sort leaves them. */
  function SortNewestFirst(s: seq<LogMessageData>): (r: seq<LogMessageData>)
    ensures SortedNewestFirst(r)
    ensures multiset(r) == multiset(s)
  {
    if s == [] then []
    else
      assert s == [s[0]] + s[1..];
      InsertNewestFirst(s[0], SortNewestFirst(s[1..]))
  }

  /** `get_log_messages` over the buffer `q`, with `now` the time of the call. */
  function GetLogMessages(q: seq<LogMessageData>, param: GetLogMessagesParameters, now: U64): (r: CanisterLogMessages)
    ensures |r.data| <= param.count
    ensures SortedNewestFirst(r.data)
    ensures multiset(r.data) == multiset(TakeFirst(FilterMatching(q, param), param.count))
    ensures forall x :: x in r.data ==> x in q && Matches(x, param)
    ensures r.lastAnalyzedMessageTimeNanos == Some(now)
  {
    var filtered := FilterMatching(q, param);
    var taken := TakeFirst(filtered, param.count);
    var data := SortNewestFirst(taken);
    assert forall x :: x in data ==> x in q && Matches(x, param) by {
      forall x | x in data ensures x in q && Matches(x, param) {
        assert x in multiset(data);
        var i :| 0 <= i < |taken| && taken[i] == x;
        assert x in filtered by { assert filtered[i] == x; }
      }
    }
    CanisterLogMessages(data, Some(now))
  }

  /** The result holds every matching entry when fewer than `count` match. */
  lemma {:induction false} GetLogMessagesComplete(q: seq<LogMessageData>, param: GetLogMessagesParameters, now: U64, x: LogMessageData)
    requires |FilterMatching(q, param)| <= param.count
    requires x in q && Matches(x, param)
    ensures x in GetLogMessages(q, param, now).data
  {
    var taken := TakeFirst(FilterMatching(q, param), param.count);
    assert taken == FilterMatching(q, param);
    assert x in multiset(taken);
    assert x in multiset(GetLogMessages(q, param, now).data);
  }

  /** `messageRegex` has no effect on the result. */
  lemma RegexIgnored(q: seq<LogMessageData>, param: GetLogMessagesParameters, now: U64, regex: Option<string>)
    requires param.filter.Some?
    ensures GetLogMessages(q, param.(filter := Some(param.filter.value.(messageRegex := regex))), now)
         == GetLogMessages(q, param, now)
  {
    var other := param.(filter := Some(param.filter.value.(messageRegex := regex)));
    assert forall x :: Matches(x, other) == Matches(x, param);
    FilterSameMatches(q, param, other);
  }

  lemma {:induction false} FilterSameMatches(q: seq<LogMessageData>, p1: GetLogMessagesParameters, p2: GetLogMessagesParameters)
    requires forall x :: Matches(x, p1) == Matches(x, p2)
    ensures FilterMatching(q, p1) == FilterMatching(q, p2)
  {
    if q != [] {
      FilterSameMatches(q[1..], p1, p2);
    }
  }

  /** The take comes before the sort: from a buffer holding an older entry
      before a newer one, a query for one entry returns the older. */
  lemma TakeBeforeSort(older: LogMessageData, newer: LogMessageData, now: U64)
    requires older.timeNanos < newer.timeNanos
    ensures GetLogMessages([older, newer], GetLogMessagesParameters(1, None, None), now).data == [older]
  {
    var param := GetLogMessagesParameters(1, None, None);
    assert [older, newer][1..] == [newer];
    assert FilterMatching([newer], param) == [newer];
    assert FilterMatching([older, newer], param) == [older, newer];
  }
}
