/**
 * Values, records and JavaScript built-ins shared by the two servers
 * (Backend-API/server.js and server.js) and the two browser pages.
 *
 * Conventions:
 * - timestamps are integers (milliseconds since the epoch);
 * - a channel value is a `real`; JavaScript doubles, NaN and Infinity are not modelled;
 * - the result of `parseFloat` / `parseInt` is an input of the model,
 *   an `Option` whose `None` stands for NaN.
 */
module Common {

  datatype Option<T> = None | Some(value: T)

  /** The result of JavaScript's parseInt: an integer, or NaN (None). */
  type JsInt = Option<int>

  // ---------------------------------------------------------------------------
  // JavaScript values as a parsed JSON request body delivers them
  // ---------------------------------------------------------------------------

  datatype JsValue =
    | Undefined
    | Null
    | Bool(b: bool)
    | Number(n: Option<real>, text: string)  // n is None for NaN; text is what String(n) prints
    | Str(s: string)
    | Array(items: seq<JsValue>)
    | Object(ownToString: bool)               // a non-array object; ownToString: the JSON gave it a "toString" key

  /** JavaScript truthiness, the test behind `!x` and `x || y`. */
  predicate Truthy(v: JsValue) {
    match v
    case Undefined => false
    case Null => false
    case Bool(b) => b
    case Number(n, _) => n.Some? && n.value != 0.0
    case Str(s) => s != ""
    case Array(_) => true
    case Object(_) => true
  }

  /**
   * JavaScript's String(v), None where it throws a TypeError. An array prints its
   * items joined by ",", with null and undefined items printing as "". A plain
   * object prints "[object Object]"; an object that a JSON body gave its own
   * "toString" key cannot be converted, since that key is not callable and
   * valueOf returns the object itself. An array holding such an object throws too.
   */
  function ToJsString(v: JsValue): (r: Option<string>)
    ensures v.Str? ==> r == Some(v.s)
    ensures v.Object? ==> (r.None? <==> v.ownToString)
    ensures v.Object? && !v.ownToString ==> r == Some("[object Object]")
    ensures v.Number? ==> r == Some(v.text)
    ensures v.Array? ==>
              (r.None? <==> exists i :: 0 <= i < |v.items| && !v.items[i].Undefined? && !v.items[i].Null? &&
                                        ToJsString(v.items[i]).None?)
    ensures v.Array? && v.items == [] ==> r == Some("")
    decreases v, 1
  {
    match v
    case Undefined => Some("undefined")
    case Null => Some("null")
    case Bool(b) => Some(if b then "true" else "false")
    case Number(_, text) => Some(text)
    case Str(s) => Some(s)
    case Array(items) =>
      var parts := seq(|items|, i requires 0 <= i < |items| => ItemString(items[i], v));
      if exists i :: 0 <= i < |parts| && parts[i].None? then None
      else
        assert forall i :: 0 <= i < |items| ==> ItemString(items[i], v) == parts[i] && parts[i].Some?;
        Some(Join(seq(|parts|, i requires 0 <= i < |parts| => parts[i].value), ','))
    case Object(ownToString) => if ownToString then None else Some("[object Object]")
  }

  /** How Array.prototype.join prints one item of `whole`; None where that throws. */
  function ItemString(item: JsValue, ghost whole: JsValue): (r: Option<string>)
    requires item < whole
    ensures r.None? <==> !item.Undefined? && !item.Null? && ToJsString(item).None?
    decreases whole, 0
  {
    if item.Undefined? || item.Null? then Some("") else ToJsString(item)
  }

  /** A truthy value whose String() is empty: `[]` passes a `!x` check yet prints as "". */
  lemma EmptyArrayIsTruthyButBlank()
    ensures Truthy(Array([])) && ToJsString(Array([])) == Some("")
  {
  }

  // ---------------------------------------------------------------------------
  // Strings: Array.prototype.join and its inverse
  // ---------------------------------------------------------------------------

  /** `parts.join(sep)`. */
  function Join(parts: seq<string>, sep: char): string
  {
    if |parts| == 0 then ""
    else if |parts| == 1 then parts[0]
    else parts[0] + [sep] + Join(parts[1..], sep)
  }

  /** Cuts `s` at every `sep`; the inverse of Join (see SplitJoin). */
  function Split(s: string, sep: char): (r: seq<string>)
    ensures |r| >= 1
    decreases |s|
  {
    if s == [] then [""]
    else
      var rest := Split(s[1..], sep);
      if s[0] == sep then [""] + rest else [[s[0]] + rest[0]] + rest[1..]
  }

  /** A piece free of the separator splits off whole. */
  lemma {:induction false} SplitAtFirst(a: string, b: string, sep: char)
    requires sep !in a
    ensures Split(a + [sep] + b, sep) == [a] + Split(b, sep)
    ensures Split(a, sep) == [a]
    decreases |a|
  {
    if a == [] {
      assert a + [sep] + b == [sep] + b;
      assert ([sep] + b)[1..] == b;
    } else {
      SplitAtFirst(a[1..], b, sep);
      assert (a + [sep] + b)[1..] == a[1..] + [sep] + b;
      assert [a[0]] + a[1..] == a;
    }
  }

  /** Joining pieces that are free of the separator, then splitting, gives the pieces back. */
  lemma {:induction false} SplitJoin(parts: seq<string>, sep: char)
    requires |parts| >= 1
    requires forall i :: 0 <= i < |parts| ==> sep !in parts[i]
    ensures Split(Join(parts, sep), sep) == parts
  {
    if |parts| == 1 {
      SplitAtFirst(parts[0], "", sep);
    } else {
      SplitJoin(parts[1..], sep);
      SplitAtFirst(parts[0], Join(parts[1..], sep), sep);
      assert [parts[0]] + parts[1..] == parts;
    }
  }

  /** Joining pieces free of a character `c` other than the separator gives a string free of `c`. */
  lemma {:induction false} JoinAvoids(parts: seq<string>, sep: char, c: char)
    requires c != sep
    requires forall i :: 0 <= i < |parts| ==> c !in parts[i]
    ensures c !in Join(parts, sep)
  {
    if |parts| > 1 {
      JoinAvoids(parts[1..], sep, c);
    }
  }

  // ---------------------------------------------------------------------------
  // Samples
  // ---------------------------------------------------------------------------

  const ChannelCount := 10

  /** The ten optical channels, in the order the sensor and every page list them. */
  datatype Channels<T> = Channels(f1: T, f2: T, f3: T, f4: T, f5: T, f6: T, f7: T, f8: T, clear: T, nir: T)
  {
    /** The channels as a vector: f1..f8, clear, nir. */
    function Values(): (r: seq<T>)
      ensures |r| == ChannelCount
      ensures r[0] == f1 && r[5] == f6 && r[6] == f7 && r[8] == clear && r[9] == nir
    {
      [f1, f2, f3, f4, f5, f6, f7, f8, clear, nir]
    }

    /** Applies `f` to every channel, keeping each in its place. */
    function Map<U>(f: T -> U): (r: Channels<U>)
      ensures forall k :: 0 <= k < ChannelCount ==> r.Values()[k] == f(Values()[k])
    {
      Channels(f(f1), f(f2), f(f3), f(f4), f(f5), f(f6), f(f7), f(f8), f(clear), f(nir))
    }
  }

  /** One stored sample; `Id` is the type its sensor_id has in the store holding it. */
  datatype Reading<Id> = Reading(timestamp: int, sensorId: Id, channels: Channels<real>)

  /** A sample as a page receives it in JSON: any channel may be missing or null (None). */
  datatype Received = Received(timestamp: int, sensorId: JsValue, channels: Channels<Option<real>>)

  /** The body of a record request: sensor_id as sent, and parseFloat of each channel. */
  datatype RecordBody = RecordBody(sensorId: JsValue, channels: Channels<Option<real>>)

  /**
   * `x || 0` for a number-or-NaN `x`, as in `parseFloat(f1) || 0` and `data.f1 || 0`:
   * the value itself, or 0 when it is missing, NaN or zero.
   */
  function OrZero(p: Option<real>): (r: real)
    ensures p.Some? ==> r == p.value
    ensures r == 0.0 <==> (p.None? || p.value == 0.0)
  {
    match p
    case Some(x) => x
    case None => 0.0
  }

  /** `parseInt(x) || d`: the parsed integer, or `d` when it is NaN or zero. */
  function IntOr(p: JsInt, d: int): (r: int)
    ensures p.Some? && p.value != 0 ==> r == p.value
    ensures p.None? || p.value == 0 ==> r == d
    ensures d != 0 ==> r != 0
  {
    if p.Some? && p.value != 0 then p.value else d
  }

  // ---------------------------------------------------------------------------
  // Arrays: slice, filter
  // ---------------------------------------------------------------------------

  /**
   * `s.slice(start)`: a negative start counts from the end, and the result is
   * always a suffix of `s`.
   */
  function SliceFrom<T>(s: seq<T>, start: int): (r: seq<T>)
    ensures |r| <= |s| && r == s[|s| - |r|..]
    ensures 0 <= start ==> |r| == if start <= |s| then |s| - start else 0
    ensures start < 0 ==> |r| == if -start <= |s| then -start else |s|
  {
    var from :=
      if start < 0 then (if |s| + start < 0 then 0 else |s| + start)
      else (if start > |s| then |s| else start);
    s[from..]
  }

  /**
   * `s.slice(-n)` where `n` is a parsed number: -NaN is NaN, which slice reads as 0,
   * and -0 is 0, so both of those return all of `s`.
   */
  function SliceLast<T>(s: seq<T>, n: JsInt): (r: seq<T>)
    ensures |r| <= |s| && r == s[|s| - |r|..]
    ensures n.Some? && n.value > 0 ==> |r| == if n.value <= |s| then n.value else |s|
    ensures n.None? || n.value == 0 ==> r == s
    ensures n.Some? && n.value < 0 ==> |r| == if -n.value <= |s| then |s| + n.value else 0
  {
    SliceFrom(s, if n.None? then 0 else -n.value)
  }

  /**
   * `if (a.length > max) a = a.slice(-max)`: the newest `max` entries, in order.
   * (For max == 0 JavaScript's slice(-0) would keep everything; both servers use 1000.)
   */
  function Trim<T>(s: seq<T>, max: nat): (r: seq<T>)
    requires 0 < max
    ensures |r| == if |s| <= max then |s| else max
    ensures r == s[|s| - |r|..]
  {
    if |s| > max then SliceFrom(s, -(max as int)) else s
  }

  /**
   * Trimming after every append leaves the same buffer as trimming once at the end:
   * what Backend-API's per-record addToMemory and server.js's single trim after the
   * demo loop both rely on.
   */
  lemma TrimAppend<T>(s: seq<T>, t: seq<T>, max: nat)
    requires 0 < max
    ensures Trim(Trim(s, max) + t, max) == Trim(s + t, max)
  {
    var u := Trim(s, max);
    assert u + t == (s + t)[|s| - |u|..];
    var a, b := Trim(u + t, max), Trim(s + t, max);
    assert |a| == |b|;
    assert a == (s + t)[|s + t| - |a|..];
  }

  /**
   * Appending one entry and trimming, step by step, agrees with trimming the
   * longer prefix: the step of a loop that appends `batch` entry by entry.
   */
  lemma TrimStep<T>(before: seq<T>, batch: seq<T>, i: nat, max: nat)
    requires 0 < max && i < |batch|
    ensures Trim(Trim(before + batch[..i], max) + [batch[i]], max) == Trim(before + batch[..i + 1], max)
  {
    var prefix := before + batch[..i];
    assert before + batch[..i + 1] == prefix + [batch[i]];
    TrimAppend(prefix, [batch[i]], max);
  }

  /** `a` is `b` with some entries left out, the rest in their order. */
  ghost predicate Subsequence<T>(a: seq<T>, b: seq<T>)
    decreases |b|
  {
    if a == [] then true
    else if b == [] then false
    else (a[0] == b[0] && Subsequence(a[1..], b[1..])) || Subsequence(a, b[1..])
  }

  /** Dropping a prefix of a subsequence leaves a subsequence. */
  lemma {:induction false} SubsequenceDrop<T>(a: seq<T>, b: seq<T>, k: nat)
    requires Subsequence(a, b) && k <= |a|
    ensures Subsequence(a[k..], b)
    decreases |b|
  {
    if a[k..] != [] {
      if a[0] == b[0] && Subsequence(a[1..], b[1..]) {
        if k > 0 {
          SubsequenceDrop(a[1..], b[1..], k - 1);
          assert a[1..][k - 1..] == a[k..];
        }
      } else {
        SubsequenceDrop(a, b[1..], k);
      }
    }
  }

  /** `s.filter(keep)`: exactly the entries that pass, in their original order. */
  function Filter<T>(s: seq<T>, keep: T -> bool): (r: seq<T>)
    ensures |r| <= |s|
    ensures forall i :: 0 <= i < |r| ==> keep(r[i])
    ensures forall i :: 0 <= i < |r| ==> r[i] in s
    ensures forall i :: 0 <= i < |s| && keep(s[i]) ==> s[i] in r
    ensures Subsequence(r, s)
  {
    if s == [] then []
    else
      var rest := Filter(s[1..], keep);
      if keep(s[0]) then
        assert ([s[0]] + rest)[1..] == rest;
        [s[0]] + rest
      else
        rest
  }

  /** The filter keeps every passing entry as often as it occurs, and no other. */
  lemma {:induction false} FilterCounts<T>(s: seq<T>, keep: T -> bool)
    ensures forall x :: multiset(Filter(s, keep))[x] == if keep(x) then multiset(s)[x] else 0
  {
    if s != [] {
      FilterCounts(s[1..], keep);
      assert s == [s[0]] + s[1..];
      assert multiset(s) == multiset{s[0]} + multiset(s[1..]);
    }
  }

  /** Filtering distributes over concatenation. */
  lemma {:induction false} FilterAppend<T>(s: seq<T>, t: seq<T>, keep: T -> bool)
    ensures Filter(s + t, keep) == Filter(s, keep) + Filter(t, keep)
  {
    if s == [] {
      assert s + t == t;
    } else {
      var st := s + t;
      assert st[0] == s[0] && st[1..] == s[1..] + t;
      FilterAppend(s[1..], t, keep);
    }
  }

  // ---------------------------------------------------------------------------
  // The durable store (InfluxDB) as an oracle
  // ---------------------------------------------------------------------------

  /** What a durable-store query handed to the handler's callbacks. */
  datatype Query<R> =
    | NotConfigured        // the handler does not query at all
    | Completed(rows: seq<R>)  // next() for each row, then complete()
    | Errored(rows: seq<R>)    // the rows delivered before error()
    | Threw                // queryRows threw before delivering anything
  {
    /** The rows the handler collected; error() resolves with whatever came before it. */
    function Delivered(): (r: seq<R>)
      ensures (Completed? || Errored?) ==> r == rows
      ensures (NotConfigured? || Threw?) ==> r == []
    {
      if Completed? || Errored? then rows else []
    }
  }

  /** What writePoint followed by flush did. */
  datatype WriteOutcome = WriteSkipped | Flushed | WriteFailed

  // ---------------------------------------------------------------------------
  // Request parameters
  // ---------------------------------------------------------------------------

  /** A `start` / `end` query parameter: omitted (or empty), a date `new Date` rejects, or a date. */
  datatype TimeArg = Omitted | Unparsable | At(ms: int)

  const DayMillis := 24 * 60 * 60 * 1000

  /**
   * The history window: `start` defaults to 24 hours before `now`, `end` to `now`.
   * None when either date is invalid; its toISOString() then throws.
   */
  function Window(start: TimeArg, end: TimeArg, now: int): (w: Option<(int, int)>)
    ensures w.None? <==> start.Unparsable? || end.Unparsable?
    ensures w.Some? && start.Omitted? && end.Omitted? ==> w.value.1 - w.value.0 == 86400000
    ensures w.Some? && start.At? ==> w.value.0 == start.ms
    ensures w.Some? && end.At? ==> w.value.1 == end.ms
    ensures w.Some? && start.Omitted? ==> w.value.0 == now - DayMillis
    ensures w.Some? && end.Omitted? ==> w.value.1 == now
  {
    if start.Unparsable? || end.Unparsable? then None
    else
      var from := if start.At? then start.ms else now - DayMillis;
      var to := if end.At? then end.ms else now;
      Some((from, to))
  }

  // ---------------------------------------------------------------------------
  // Demo data
  // ---------------------------------------------------------------------------

  const DemoIntervalMillis := 60000

  /**
   * The samples `/demo/generate` appends: for i in [0, count), timestamp
   * now - (count - i) minutes. The random channel values are the input `values`.
   */
  function DemoBatch<Id>(count: int, now: int, id: Id, values: nat -> Channels<real>): (r: seq<Reading<Id>>)
    ensures |r| == if count < 0 then 0 else count
    ensures forall i :: 0 <= i < |r| ==> r[i] == Reading(now - (count - i) * DemoIntervalMillis, id, values(i))
    ensures forall i, j :: 0 <= i < j < |r| ==> r[i].timestamp < r[j].timestamp
    ensures forall i :: 0 <= i < |r| ==> r[i].timestamp <= now - DemoIntervalMillis
  {
    seq(if count < 0 then 0 else count,
        i requires 0 <= i => Reading(now - (count - i) * DemoIntervalMillis, id, values(i)))
  }
}
