/** The canister log (`LoggerService` in logger.rs): a buffer of at most
    `max_count` entries that, once full, overwrites its oldest entry.
    `next` is the slot the next entry goes to and `full` records that the
    buffer has wrapped. The clock (`api::time()`) and the caller's textual
    principal are parameters. */
module Logger {
  import opened Common
  import opened LogQuery

  const DEFAULT_MAX_COUNT: nat := 20000

  /** The fields of `LoggerService`, as a value. */
  datatype Ring = Ring(queue: seq<LogMessageData>, maxCount: nat, next: nat, full: bool)

  /** The buffer invariant. */
  predicate RingValid(r: Ring) {
    && 0 < r.maxCount
    && r.next < r.maxCount
    && |r.queue| <= r.maxCount
    && (!r.full ==> |r.queue| == r.next)
    && (r.full ==> |r.queue| == r.maxCount)
  }

  /** The stored entries oldest first: once the buffer has wrapped, the
      oldest entry is the one in slot `next`. */
  function Chronological(r: Ring): seq<LogMessageData>
    requires RingValid(r)
  {
    if r.full then r.queue[r.next..] + r.queue[..r.next] else r.queue
  }

  /** The last `n` entries of `s`. */
  function Newest<T>(s: seq<T>, n: nat): (r: seq<T>)
    ensures |r| == if |s| <= n then |s| else n
  {
    if |s| <= n then s else s[|s| - n..]
  }

  /** `store_log_message`, on values. */
  function Store(r: Ring, m: LogMessageData): (r': Ring)
    requires RingValid(r)
    ensures RingValid(r')
    ensures r'.maxCount == r.maxCount
    ensures !r.full ==> r'.queue == r.queue + [m]
    ensures r.full ==>
      && |r'.queue| == |r.queue|
      && r'.queue[r.next] == m
      && (forall i :: 0 <= i < |r.queue| && i != r.next ==> r'.queue[i] == r.queue[i])
    ensures r'.full <==> r.full || r.next + 1 == r.maxCount
    ensures r'.next == if r.next + 1 == r.maxCount then 0 else r.next + 1
  {
    var queue := if r.full then r.queue[r.next := m] else r.queue + [m];
    var next := r.next + 1;
    if next == r.maxCount then Ring(queue, r.maxCount, 0, true)
    else Ring(queue, r.maxCount, next, r.full)
  }

  /** Storing keeps exactly the `max_count` most recent entries, oldest first:
      below capacity the entry is appended, at capacity the oldest is dropped. */
  lemma StoreKeepsNewest(r: Ring, m: LogMessageData)
    requires RingValid(r)
    ensures Chronological(Store(r, m)) == Newest(Chronological(r) + [m], r.maxCount)
  {
    var r' := Store(r, m);
    var q, n := r.queue, r.next;
    if !r.full {
      assert |Chronological(r) + [m]| <= r.maxCount;
      if r'.full {
        assert r'.queue[0..] + r'.queue[..0] == r'.queue;
      }
    } else {
      var c := q[n..] + q[..n];
      assert (c + [m])[1..] == q[n + 1..] + q[..n] + [m];
      if n + 1 < r.maxCount {
        assert r'.queue[n + 1..] == q[n + 1..];
        assert r'.queue[..n + 1] == q[..n] + [m];
      } else {
        assert q[n + 1..] == [];
        assert r'.queue == q[..n] + [m];
      }
    }
  }

  /** The text `log_format_message` builds from its key/value pairs: `k:v,` for each pair. */
  function KvText(kv: seq<(string, string)>): string {
    if kv == [] then ""
    else KvText(kv[..|kv| - 1]) + kv[|kv| - 1].0 + ":" + kv[|kv| - 1].1 + ","
  }

  /** Each pair contributes its own `k:v,`, in order. */
  lemma {:induction false} KvTextAppend(a: seq<(string, string)>, b: seq<(string, string)>)
    ensures KvText(a + b) == KvText(a) + KvText(b)
    decreases |b|
  {
    if b != [] {
      var n := |b|;
      assert (a + b)[..|a + b| - 1] == a + b[..n - 1];
      KvTextAppend(a, b[..n - 1]);
    } else {
      assert a + b == a;
    }
  }

  /** The message `log_format_message` stores: `canister||caller||method||k1:v1,k2:v2,`.
      Fields free of `|` are read back one by one by splitting at the first
      `||`, and after the three fields and their separators only the
      key/value text remains. */
  function FormatMessage(canister: string, callerText: string, methodName: string, kv: seq<(string, string)>): (m: string)
    ensures '|' !in canister ==> FirstField(m) == canister
    ensures '|' !in canister && '|' !in callerText ==>
              |canister| + 2 <= |m| && FirstField(m[|canister| + 2..]) == callerText
    ensures '|' !in canister && '|' !in callerText && '|' !in methodName ==>
              |canister| + |callerText| + 4 <= |m|
              && FirstField(m[|canister| + |callerText| + 4..]) == methodName
    ensures |m| == |canister| + |callerText| + |methodName| + 6 + |KvText(kv)|
    ensures m[|m| - |KvText(kv)|..] == KvText(kv)
  {
    var last := methodName + "||" + KvText(kv);
    var tail := callerText + "||" + last;
    var m := canister + "||" + tail;
    assert m[|canister| + 2..] == tail;
    assert tail[|callerText| + 2..] == last;
    assert m[|canister| + |callerText| + 4..] == last;
    FirstFieldOf(canister, tail);
    FirstFieldOf(callerText, last);
    FirstFieldOf(methodName, KvText(kv));
    assert m == canister + "||" + callerText + "||" + methodName + "||" + KvText(kv);
    m
  }

  /** The text before the first `||` (all of `s` when there is none). */
  function FirstField(s: string): string {
    if |s| < 2 then s
    else if s[0] == '|' && s[1] == '|' then []
    else [s[0]] + FirstField(s[1..])
  }

  lemma {:induction false} FirstFieldOf(field: string, rest: string)
    ensures '|' !in field ==> FirstField(field + "||" + rest) == field
  {
    if field != [] && '|' !in field {
      assert (field + "||" + rest)[1..] == field[1..] + "||" + rest;
      FirstFieldOf(field[1..], rest);
    }
  }

  /** The `for (k, v) in kv` loop of `log_format_message`. */
  method FormatKv(kv: seq<(string, string)>) returns (message: string)
    ensures message == KvText(kv)
  {
    message := "";
    for i := 0 to |kv|
      invariant message == KvText(kv[..i])
    {
      var (k, v) := kv[i];
      message := message + k + ":" + v + ",";
      assert kv[..i + 1][..i] == kv[..i];
    }
    assert kv[..|kv|] == kv;
  }

  /** The log buffer (`LoggerService`). */
  class LoggerService {
    var queue: seq<LogMessageData>
    var maxCount: nat
    var next: nat
    var full: bool

    function State(): Ring
      reads this
    {
      Ring(queue, maxCount, next, full)
    }

    ghost predicate Valid()
      reads this
    {
      RingValid(State())
    }

    /** `Default`: empty, capacity 20000, not wrapped. */
    constructor ()
      ensures Valid()
      ensures queue == [] && maxCount == DEFAULT_MAX_COUNT && next == 0 && !full
    {
      queue := [];
      maxCount := DEFAULT_MAX_COUNT;
      next := 0;
      full := false;
    }

    /** `store_log_message`. */
    method StoreLogMessage(m: LogMessageData)
      requires Valid()
      modifies this
      ensures Valid()
      ensures State() == Store(old(State()), m)
      ensures Chronological(State()) == Newest(Chronological(old(State())) + [m], maxCount)
    {
      StoreKeepsNewest(State(), m);
      if full {
        queue := queue[next := m];
      } else {
        queue := queue + [m];
      }
      next := next + 1;
      if next == maxCount {
        full := true;
        next := 0;
      }
    }

    /** `log_format_message`: stores exactly one entry, stamped `timeNanos`,
        whose message is `FormatMessage` of the arguments. */
    method LogFormatMessage(canister: string, callerText: string, methodName: string, kv: seq<(string, string)>, timeNanos: U64)
      requires Valid()
      modifies this
      ensures Valid()
      ensures State() == Store(old(State()), LogMessageData(timeNanos, FormatMessage(canister, callerText, methodName, kv)))
    {
      var message := FormatKv(kv);
      var text := canister + "||" + callerText + "||" + methodName + "||" + message;
      assert text == FormatMessage(canister, callerText, methodName, kv);
      StoreLogMessage(LogMessageData(timeNanos, text));
    }

    /** `get_log_messages`, over the buffer in slot order. */
    function GetLogMessages(param: GetLogMessagesParameters, now: U64): (r: CanisterLogMessages)
      reads this
      ensures |r.data| <= param.count
      ensures SortedNewestFirst(r.data)
      ensures multiset(r.data) == multiset(TakeFirst(FilterMatching(queue, param), param.count))
      ensures forall x :: x in r.data ==> x in queue && Matches(x, param)
      ensures r.lastAnalyzedMessageTimeNanos == Some(now)
    {
      LogQuery.GetLogMessages(queue, param, now)
    }
  }
}
