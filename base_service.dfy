/** The bookkeeping helpers of `BaseService` (src/services/base_service.py):
    the cache-key builder, the metrics record that `_record_operation`
    updates, the empty case of the average duration, and the operation-name
    check. */
module BaseService {
  import opened Wrappers
  import opened Strings
  import Models

  // ---------------------------------------------------------------------
  // Python string and tuple order
  // ---------------------------------------------------------------------

  /** `a < b` on Python strings: lexicographic by code point. */
  predicate StrLt(a: string, b: string) {
    if a == [] then b != []
    else if b == [] then false
    else if a[0] != b[0] then a[0] < b[0]
    else StrLt(a[1..], b[1..])
  }

  lemma {:induction false} StrLtIrreflexive(a: string)
    ensures !StrLt(a, a)
  {
    if a != [] {
      StrLtIrreflexive(a[1..]);
    }
  }

  lemma {:induction false} StrLtTransitive(a: string, b: string, c: string)
    requires StrLt(a, b) && StrLt(b, c)
    ensures StrLt(a, c)
  {
    if a != [] && b != [] && c != [] && a[0] == b[0] && b[0] == c[0] {
      StrLtTransitive(a[1..], b[1..], c[1..]);
    }
  }

  /** Two different strings are ordered one way or the other. */
  lemma {:induction false} StrLtTotal(a: string, b: string)
    requires a != b
    ensures StrLt(a, b) || StrLt(b, a)
  {
    if a != [] && b != [] && a[0] == b[0] {
      assert a == [a[0]] + a[1..] && b == [b[0]] + b[1..];
      StrLtTotal(a[1..], b[1..]);
    }
  }

  /** A keyword argument as `kwargs.items()` yields it: the name and the
      `str` of its value. */
  type Kwarg = (string, string)

  /** Tuple order on `(key, value)` pairs, as `sorted` applies it. */
  predicate PairLt(p: Kwarg, q: Kwarg) {
    StrLt(p.0, q.0) || (p.0 == q.0 && StrLt(p.1, q.1))
  }

  lemma PairLtTransitive(p: Kwarg, q: Kwarg, r: Kwarg)
    requires PairLt(p, q) && PairLt(q, r)
    ensures PairLt(p, r)
  {
    if StrLt(p.0, q.0) && StrLt(q.0, r.0) {
      StrLtTransitive(p.0, q.0, r.0);
    } else if StrLt(p.0, q.0) || StrLt(q.0, r.0) {
    } else {
      StrLtTransitive(p.1, q.1, r.1);
    }
  }

  /** Two pairs neither of which is below the other are equal. */
  lemma PairLtAntisymmetric(p: Kwarg, q: Kwarg)
    requires !PairLt(p, q) && !PairLt(q, p)
    ensures p == q
  {
    if p.0 != q.0 {
      StrLtTotal(p.0, q.0);
    } else if p.1 != q.1 {
      StrLtTotal(p.1, q.1);
    }
  }

  // ---------------------------------------------------------------------
  // sorted(kwargs.items())
  // ---------------------------------------------------------------------

  predicate Sorted(s: seq<Kwarg>) {
    forall i, j :: 0 <= i < j < |s| ==> !PairLt(s[j], s[i])
  }

  /** Every element of `s` is at least `p`. */
  predicate AllAtLeast(p: Kwarg, s: seq<Kwarg>) {
    forall i :: 0 <= i < |s| ==> !PairLt(s[i], p)
  }

  /** Prepending an element no greater than the rest keeps a list sorted. */
  lemma SortedCons(p: Kwarg, s: seq<Kwarg>)
    requires Sorted(s) && AllAtLeast(p, s)
    ensures Sorted([p] + s)
  {
  }

  /** An element placed before the head of a sorted list is below all of it. */
  lemma BelowHeadBelowAll(p: Kwarg, s: seq<Kwarg>)
    requires Sorted(s) && s != [] && !PairLt(s[0], p)
    ensures AllAtLeast(p, s)
  {
    forall i | 0 <= i < |s| ensures !PairLt(s[i], p) {
      if i > 0 && PairLt(s[i], p) && s[i] != s[0] {
        PairLtTotal(s[i], s[0]);
        PairLtTransitive(s[0], s[i], p);
      }
    }
  }

  /** The head of a sorted list is below what inserting a larger `p` into its
      tail gives. */
  lemma HeadBelowInserted(p: Kwarg, s: seq<Kwarg>, rest: seq<Kwarg>)
    requires Sorted(s) && s != [] && PairLt(s[0], p)
    requires multiset(rest) == multiset(s[1..]) + multiset{p}
    ensures AllAtLeast(s[0], rest)
  {
    forall i | 0 <= i < |rest| ensures !PairLt(rest[i], s[0]) {
      assert rest[i] in multiset(rest);
      if rest[i] == p {
        if PairLt(p, s[0]) {
          PairLtTransitive(p, s[0], p);
          PairLtIrreflexive(p);
        }
      } else {
        assert rest[i] in s[1..];
        var k :| 0 <= k < |s[1..]| && s[1..][k] == rest[i];
        assert s[k + 1] == rest[i];
      }
    }
  }

  /** Inserting `p` into a sorted list keeps it sorted and adds exactly `p`. */
  function Insert(p: Kwarg, s: seq<Kwarg>): (r: seq<Kwarg>)
    requires Sorted(s)
    ensures |r| == |s| + 1
    ensures Sorted(r)
    ensures multiset(r) == multiset(s) + multiset{p}
  {
    if s == [] then [p]
    else if !PairLt(s[0], p) then
      BelowHeadBelowAll(p, s);
      SortedCons(p, s);
      [p] + s
    else
      var rest := Insert(p, s[1..]);
      HeadBelowInserted(p, s, rest);
      SortedCons(s[0], rest);
      assert s == [s[0]] + s[1..];
      [s[0]] + rest
  }

  /** Two different pairs are ordered one way or the other. */
  lemma PairLtTotal(p: Kwarg, q: Kwarg)
    requires p != q
    ensures PairLt(p, q) || PairLt(q, p)
  {
    if p.0 != q.0 {
      StrLtTotal(p.0, q.0);
    } else {
      StrLtTotal(p.1, q.1);
    }
  }

  lemma PairLtIrreflexive(p: Kwarg)
    ensures !PairLt(p, p)
  {
    StrLtIrreflexive(p.0);
    StrLtIrreflexive(p.1);
  }

  /** `sorted(items)`: the items in tuple order. */
  function Sort(items: seq<Kwarg>): (r: seq<Kwarg>)
    ensures |r| == |items|
    ensures Sorted(r)
    ensures multiset(r) == multiset(items)
  {
    if items == [] then []
    else
      assert items == [items[0]] + items[1..];
      Insert(items[0], Sort(items[1..]))
  }

  /** Two sorted lists with the same elements start with the same one. */
  lemma SortedHeadsEqual(a: seq<Kwarg>, b: seq<Kwarg>)
    requires Sorted(a) && Sorted(b)
    requires multiset(a) == multiset(b)
    requires a != []
    ensures b != [] && a[0] == b[0]
  {
    assert a[0] in multiset(b);
    assert b[0] in multiset(a);
    var i :| 0 <= i < |b| && b[i] == a[0];
    var j :| 0 <= j < |a| && a[j] == b[0];
    if i != 0 && j != 0 {
      PairLtAntisymmetric(a[0], b[0]);
    }
  }

  /** The elements of a non-empty list other than its head. */
  lemma MultisetTail<T>(a: seq<T>)
    requires a != []
    ensures multiset(a[1..]) == multiset(a) - multiset{a[0]}
  {
    assert a == [a[0]] + a[1..];
  }

  /** Two sorted lists with the same elements are the same list. */
  lemma {:induction false} SortedUnique(a: seq<Kwarg>, b: seq<Kwarg>)
    requires Sorted(a) && Sorted(b)
    requires multiset(a) == multiset(b)
    ensures a == b
  {
    if a == [] {
      assert |b| == |multiset(b)|;
    } else {
      SortedHeadsEqual(a, b);
      MultisetTail(a);
      MultisetTail(b);
      SortedUnique(a[1..], b[1..]);
      assert a == [a[0]] + a[1..] && b == [b[0]] + b[1..];
    }
  }

  // ---------------------------------------------------------------------
  // _generate_cache_key
  // ---------------------------------------------------------------------

  /** The `f"{k}={v}"` texts of the given pairs, in order. */
  function KwargTexts(items: seq<Kwarg>): (r: seq<string>)
    ensures |r| == |items|
    ensures forall i :: 0 <= i < |items| ==> r[i] == items[i].0 + "=" + items[i].1
  {
    if items == [] then [] else [items[0].0 + "=" + items[0].1] + KwargTexts(items[1..])
  }

  /** `key_parts`: the prefix, the `str` of each positional argument, then
      the keyword arguments in sorted order. */
  function KeyParts(prefix: string, args: seq<string>, kwargs: seq<Kwarg>): seq<string> {
    [prefix] + args + KwargTexts(Sort(kwargs))
  }

  /** `_generate_cache_key`. */
  function CacheKey(prefix: string, args: seq<string>, kwargs: seq<Kwarg>): string {
    Join(":", KeyParts(prefix, args, kwargs))
  }

  /** The parts are the prefix, then the positional arguments in order, then
      one `k=v` text per keyword argument, sorted and none lost. */
  lemma KeyPartsLayout(prefix: string, args: seq<string>, kwargs: seq<Kwarg>)
    ensures var parts := KeyParts(prefix, args, kwargs);
      |parts| == 1 + |args| + |kwargs| &&
      parts[0] == prefix &&
      parts[1..1 + |args|] == args &&
      exists sorted: seq<Kwarg> :: Sorted(sorted) && multiset(sorted) == multiset(kwargs) &&
        parts[1 + |args|..] == KwargTexts(sorted)
  {
    var parts := KeyParts(prefix, args, kwargs);
    var sorted := Sort(kwargs);
    assert parts[1 + |args|..] == KwargTexts(sorted);
    assert Sorted(sorted) && multiset(sorted) == multiset(kwargs);
    assert |parts| == 1 + |args| + |kwargs|;
    assert parts[0] == prefix;
    assert parts[1..1 + |args|] == args;
  }

  /** The key does not depend on the order the keyword arguments were
      passed in. */
  lemma CacheKeyOrderIndependent(prefix: string, args: seq<string>, kwargs: seq<Kwarg>, reordered: seq<Kwarg>)
    requires multiset(reordered) == multiset(kwargs)
    ensures CacheKey(prefix, args, reordered) == CacheKey(prefix, args, kwargs)
  {
    SortedUnique(Sort(reordered), Sort(kwargs));
  }

  // ---------------------------------------------------------------------
  // metrics and _record_operation
  // ---------------------------------------------------------------------

  /** `last_operation`; `timestamp` is the text of `datetime.now().isoformat()`. */
  datatype OperationRecord = OperationRecord(name: string, timestamp: string, duration: real, success: bool)

  /** `last_error`. */
  datatype ErrorRecord = ErrorRecord(operation: string, timestamp: string, error: Option<string>)

  /** The `self.metrics` dictionary. */
  datatype Metrics = Metrics(
    operationsTotal: int,
    errorsTotal: int,
    operationDuration: seq<real>,
    lastError: Option<ErrorRecord>,
    lastOperation: Option<OperationRecord>)

  /** `_initialize_metrics`. */
  const InitialMetrics := Metrics(0, 0, [], None, None)

  /** How many duration measurements are kept. */
  const HistoryLimit := 1000

  /** `d[-n:]` when the list is longer than `n`, else the list itself. */
  function KeepLast(d: seq<real>, n: nat): seq<real> {
    if |d| > n then d[|d| - n..] else d
  }

  /** The metrics after one `_record_operation` call. */
  function Recorded(m: Metrics, name: string, duration: real, success: bool, error: Option<string>, timestamp: string): Metrics {
    Metrics(
      m.operationsTotal + 1,
      if success then m.errorsTotal else m.errorsTotal + 1,
      KeepLast(m.operationDuration + [duration], HistoryLimit),
      if success then m.lastError else Some(ErrorRecord(name, timestamp, error)),
      Some(OperationRecord(name, timestamp, duration, success)))
  }

  /** The history keeps the most recent measurements, in order, at most `n`
      of them, and all of them when there are no more than `n`. */
  lemma KeepLastIsRecentSuffix(d: seq<real>, n: nat)
    ensures var k := KeepLast(d, n);
      |k| == (if |d| <= n then |d| else n) && k == d[|d| - |k|..]
  {
  }

  /** The counters and the last-operation record of one call. */
  lemma RecordedCounters(m: Metrics, name: string, duration: real, success: bool, error: Option<string>, timestamp: string)
    ensures var r := Recorded(m, name, duration, success, error, timestamp);
      r.operationsTotal == m.operationsTotal + 1 &&
      r.lastOperation == Some(OperationRecord(name, timestamp, duration, success)) &&
      (success ==> r.errorsTotal == m.errorsTotal && r.lastError == m.lastError) &&
      (!success ==> r.errorsTotal == m.errorsTotal + 1 && r.lastError == Some(ErrorRecord(name, timestamp, error)))
  {
  }

  /** The record a service keeps: no more failures than operations and at
      most `HistoryLimit` durations. */
  predicate Consistent(m: Metrics) {
    0 <= m.errorsTotal <= m.operationsTotal && |m.operationDuration| <= HistoryLimit
  }

  lemma InitialConsistent()
    ensures Consistent(InitialMetrics)
  {
  }

  /** One call keeps the record consistent; the newest duration is the
      last one held and the older ones keep their order. */
  lemma RecordedKeepsConsistent(m: Metrics, name: string, duration: real, success: bool, error: Option<string>, timestamp: string)
    requires Consistent(m)
    ensures var r := Recorded(m, name, duration, success, error, timestamp);
      Consistent(r) &&
      r.operationDuration[|r.operationDuration| - 1] == duration &&
      r.operationDuration[..|r.operationDuration| - 1] ==
        m.operationDuration[|m.operationDuration| + 1 - |r.operationDuration|..]
  {
    var d := m.operationDuration + [duration];
    KeepLastIsRecentSuffix(d, HistoryLimit);
    var k := KeepLast(d, HistoryLimit);
    assert k[..|k| - 1] == d[|d| - |k|..|d| - 1];
  }

  /** `_calculate_avg_duration`, on exact reals. */
  function AverageDuration(m: Metrics): real {
    if m.operationDuration == [] then 0.0 else Sum(m.operationDuration) / (|m.operationDuration| as real)
  }

  function Sum(d: seq<real>): real {
    if d == [] then 0.0 else d[0] + Sum(d[1..])
  }

  /** With no measurement the average is 0.0, in particular right after
      initialisation. */
  lemma AverageOfEmpty(m: Metrics)
    requires m.operationDuration == []
    ensures AverageDuration(m) == 0.0
    ensures AverageDuration(InitialMetrics) == 0.0
  {
  }

  /** A service's metrics record. */
  class Service {
    var metrics: Metrics

    /** `_initialize_metrics`, as `__init__` calls it. */
    constructor ()
      ensures metrics == InitialMetrics
    {
      metrics := InitialMetrics;
    }

    /** `_record_operation`: count the call, append its duration, replace
        `last_operation`, and on failure count it and replace `last_error`;
        then cut the history to its last 1000 entries. */
    method RecordOperation(name: string, duration: real, success: bool, error: Option<string>, timestamp: string)
      modifies this
      ensures metrics == Recorded(old(metrics), name, duration, success, error, timestamp)
      ensures old(Consistent(metrics)) ==> Consistent(metrics)
    {
      metrics := metrics.(operationsTotal := metrics.operationsTotal + 1);
      metrics := metrics.(operationDuration := metrics.operationDuration + [duration]);
      metrics := metrics.(lastOperation := Some(OperationRecord(name, timestamp, duration, success)));
      if !success {
        metrics := metrics.(errorsTotal := metrics.errorsTotal + 1);
        metrics := metrics.(lastError := Some(ErrorRecord(name, timestamp, error)));
      }
      if |metrics.operationDuration| > HistoryLimit {
        metrics := metrics.(operationDuration := metrics.operationDuration[|metrics.operationDuration| - HistoryLimit..]);
      }
      if old(Consistent(metrics)) {
        RecordedKeepsConsistent(old(metrics), name, duration, success, error, timestamp);
      }
    }
  }

  // ---------------------------------------------------------------------
  // is_valid_operation
  // ---------------------------------------------------------------------

  /** `bool(operation_name and isinstance(operation_name, str))`: a falsy
      argument short-circuits the `and`. */
  predicate IsValidOperation(v: Models.Value) {
    if !Models.Truthy(v) then false else v.VStr?
  }

  /** Exactly the non-empty strings are valid names. */
  lemma IsValidOperationIff(v: Models.Value)
    ensures IsValidOperation(v) <==> exists s: string :: v == Models.VStr(s) && s != []
  {
    if v.VStr? {
      assert v == Models.VStr(v.s);
    }
  }
}
