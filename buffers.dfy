/**
 * The per-bot log and error histories: bounded lists that grow at the end
 * and drop their oldest entries once they are longer than the cap
 * (1000 log entries, 100 error entries).
 */
module Buffers {

  const LogCap: nat := 1000
  const ErrorCap: nat := 100

  /** One line of a bot's output history: when, at what level, what. */
  datatype LogEntry = LogEntry(timestamp: string, level: string, message: string)

  /** One entry of a bot's error history. */
  datatype ErrorEntry = ErrorEntry(timestamp: string, error: string)

  /** The newest `cap` elements of `s`, in order: what
      `if (s.length > cap) s.splice(0, s.length - cap)` leaves behind. */
  function KeepNewest<T>(s: seq<T>, cap: nat): seq<T>
    decreases |s|
  {
    if |s| <= cap then s else KeepNewest(s[1..], cap)
  }

  /** Trimming keeps the last `cap` elements, or all of a list within the cap. */
  lemma {:induction false} KeepNewestSuffix<T>(s: seq<T>, cap: nat)
    ensures |KeepNewest(s, cap)| == if |s| <= cap then |s| else cap
    ensures KeepNewest(s, cap) == s[|s| - |KeepNewest(s, cap)|..]
    decreases |s|
  {
    if |s| > cap {
      KeepNewestSuffix(s[1..], cap);
      assert s[1..][|s| - 1 - |KeepNewest(s, cap)|..] == s[|s| - |KeepNewest(s, cap)|..];
    }
  }

  /** push(x) followed by the trim to the cap. */
  function Push<T>(s: seq<T>, x: T, cap: nat): seq<T> {
    KeepNewest(s + [x], cap)
  }

  /** Pushing several entries one after the other. */
  function PushAll<T>(s: seq<T>, xs: seq<T>, cap: nat): seq<T>
    decreases |xs|
  {
    if xs == [] then s else PushAll(Push(s, xs[0], cap), xs[1..], cap)
  }

  /** A push never leaves more than `cap` entries; below the cap it is a plain
      append, and with a positive cap the new entry is always the newest one kept. */
  lemma PushBounded<T>(s: seq<T>, x: T, cap: nat)
    ensures |Push(s, x, cap)| <= cap
    ensures |s| < cap ==> Push(s, x, cap) == s + [x]
    ensures cap > 0 ==> |Push(s, x, cap)| > 0 && Push(s, x, cap)[|Push(s, x, cap)| - 1] == x
  {
    KeepNewestSuffix(s + [x], cap);
  }

  /** At the cap, a push evicts exactly the oldest entry. */
  lemma PushAtCapEvictsOldest<T>(s: seq<T>, x: T, cap: nat)
    requires 0 < cap == |s|
    ensures Push(s, x, cap) == s[1..] + [x]
  {
    KeepNewestSuffix(s + [x], cap);
    assert (s + [x])[1..] == s[1..] + [x];
  }

  /** Trimming before appending more and trimming again is the same as
      trimming once at the end. */
  lemma KeepNewestAbsorbs<T>(a: seq<T>, b: seq<T>, cap: nat)
    ensures KeepNewest(KeepNewest(a, cap) + b, cap) == KeepNewest(a + b, cap)
  {
    var k := KeepNewest(a, cap);
    var lhs := KeepNewest(k + b, cap);
    var rhs := KeepNewest(a + b, cap);
    KeepNewestSuffix(a, cap);
    KeepNewestSuffix(k + b, cap);
    KeepNewestSuffix(a + b, cap);
    assert |lhs| == |rhs|;
    forall i | 0 <= i < |lhs| ensures lhs[i] == rhs[i] {
      var j := |k + b| - |lhs| + i;
      var j' := |a + b| - |rhs| + i;
      assert lhs[i] == (k + b)[j];
      assert rhs[i] == (a + b)[j'];
      if j < |k| {
        assert (k + b)[j] == k[j] == a[|a| - |k| + j];
        assert j' == |a| - |k| + j;
      } else {
        assert (k + b)[j] == b[j - |k|];
      }
    }
  }

  /** Pushing a list of entries one at a time into a list within the cap keeps
      the newest `cap` entries of the old list followed by the new ones. */
  lemma {:induction false} PushAllKeepsNewest<T>(s: seq<T>, xs: seq<T>, cap: nat)
    requires |s| <= cap
    ensures PushAll(s, xs, cap) == KeepNewest(s + xs, cap)
    decreases |xs|
  {
    if xs == [] {
      assert s + xs == s;
    } else {
      var s' := Push(s, xs[0], cap);
      KeepNewestSuffix(s + [xs[0]], cap);
      PushAllKeepsNewest(s', xs[1..], cap);
      KeepNewestAbsorbs(s + [xs[0]], xs[1..], cap);
      assert s + [xs[0]] + xs[1..] == s + xs;
    }
  }

  /** Appending more entries than the cap leaves exactly `cap` entries: the
      newest ones, oldest evicted first. */
  lemma PushAllOverflow<T>(s: seq<T>, xs: seq<T>, cap: nat)
    requires |s| <= cap <= |xs|
    ensures PushAll(s, xs, cap) == xs[|xs| - cap..]
  {
    PushAllKeepsNewest(s, xs, cap);
    var t := s + xs;
    KeepNewestSuffix(t, cap);
    assert t[|t| - cap..] == xs[|xs| - cap..];
  }

  /** PushAll one entry longer is one more Push. */
  lemma {:induction false} PushAllSnoc<T>(s: seq<T>, xs: seq<T>, x: T, cap: nat)
    ensures PushAll(s, xs + [x], cap) == Push(PushAll(s, xs, cap), x, cap)
    decreases |xs|
  {
    if xs == [] {
      assert xs + [x] == [x];
      assert [x][1..] == [];
    } else {
      assert (xs + [x])[0] == xs[0];
      assert (xs + [x])[1..] == xs[1..] + [x];
      PushAllSnoc(Push(s, xs[0], cap), xs[1..], x, cap);
    }
  }

  /** A list within the cap stays within it whatever is pushed. */
  lemma {:induction false} PushAllBounded<T>(s: seq<T>, xs: seq<T>, cap: nat)
    requires |s| <= cap
    ensures |PushAll(s, xs, cap)| <= cap
  {
    PushAllKeepsNewest(s, xs, cap);
    KeepNewestSuffix(s + xs, cap);
  }

  /** Pushing two lists one after the other is pushing their concatenation. */
  lemma {:induction false} PushAllConcat<T>(s: seq<T>, xs: seq<T>, ys: seq<T>, cap: nat)
    ensures PushAll(PushAll(s, xs, cap), ys, cap) == PushAll(s, xs + ys, cap)
    decreases |xs|
  {
    if xs == [] {
      assert xs + ys == ys;
    } else {
      assert (xs + ys)[0] == xs[0];
      assert (xs + ys)[1..] == xs[1..] + ys;
      PushAllConcat(Push(s, xs[0], cap), xs[1..], ys, cap);
    }
  }

  /** `histories.get(k) || []`. */
  function Lookup<K, T>(m: map<K, seq<T>>, k: K): seq<T> {
    if k in m then m[k] else []
  }

  /** The histories after the entries `xs` were pushed onto the history of
      `k` and it was trimmed to the cap; a key with nothing pushed is left
      alone. For a history within the cap this is pushing the entries one at
      a time (AppendAtPushesEach). */
  function AppendAt<K, T>(m: map<K, seq<T>>, k: K, xs: seq<T>, cap: nat): map<K, seq<T>> {
    if xs == [] then m else m[k := KeepNewest(Lookup(m, k) + xs, cap)]
  }

  lemma AppendAtPushesEach<K, T>(m: map<K, seq<T>>, k: K, xs: seq<T>, cap: nat)
    requires |Lookup(m, k)| <= cap
    ensures xs != [] ==> AppendAt(m, k, xs, cap) == m[k := PushAll(Lookup(m, k), xs, cap)]
    ensures xs != [] ==> Lookup(AppendAt(m, k, xs, cap), k) == PushAll(Lookup(m, k), xs, cap)
  {
    if xs != [] {
      var s := Lookup(m, k);
      PushAllKeepsNewest(s, xs, cap);
      assert AppendAt(m, k, xs, cap) == m[k := KeepNewest(s + xs, cap)];
    }
  }

  /** A single push is Push on the key's history. */
  lemma AppendAtOne<K, T>(m: map<K, seq<T>>, k: K, x: T, cap: nat)
    ensures AppendAt(m, k, [x], cap) == m[k := Push(Lookup(m, k), x, cap)]
  {
  }

  /** Two rounds of pushes onto the same history are one round. */
  lemma AppendAtConcat<K, T>(m: map<K, seq<T>>, k: K, xs: seq<T>, ys: seq<T>, cap: nat)
    ensures AppendAt(AppendAt(m, k, xs, cap), k, ys, cap) == AppendAt(m, k, xs + ys, cap)
  {
    if xs == [] {
      assert xs + ys == ys;
    } else if ys == [] {
      assert xs + ys == xs;
    } else {
      var s := Lookup(m, k);
      KeepNewestAbsorbs(s + xs, ys, cap);
      assert s + xs + ys == s + (xs + ys);
    }
  }

  /** Pushes leave every history within the cap and only touch their own key. */
  lemma AppendAtBounded<K, T>(m: map<K, seq<T>>, k: K, xs: seq<T>, cap: nat)
    requires forall j | j in m :: |m[j]| <= cap
    ensures forall j | j in AppendAt(m, k, xs, cap) :: |AppendAt(m, k, xs, cap)[j]| <= cap
    ensures forall j | j != k :: (j in AppendAt(m, k, xs, cap) <==> j in m)
    ensures forall j | j in m && j != k :: AppendAt(m, k, xs, cap)[j] == m[j]
  {
    KeepNewestSuffix(Lookup(m, k) + xs, cap);
  }

  /** The last entry appended to a history is its newest entry afterwards. */
  lemma AppendAtLast<K, T>(m: map<K, seq<T>>, k: K, xs: seq<T>, cap: nat)
    requires xs != [] && cap > 0
    ensures var h := Lookup(AppendAt(m, k, xs, cap), k);
      |h| > 0 && h[|h| - 1] == xs[|xs| - 1]
  {
    KeepNewestSuffix(Lookup(m, k) + xs, cap);
  }

  /** Log entries for `messages`, all at one level and time. */
  function Stamped(now: string, level: string, messages: seq<string>): (r: seq<LogEntry>)
    ensures |r| == |messages|
  {
    seq(|messages|, i requires 0 <= i < |messages| => LogEntry(now, level, messages[i]))
  }

  /** Error entries for `messages`, all at one time. */
  function StampedErrors(now: string, messages: seq<string>): (r: seq<ErrorEntry>)
    ensures |r| == |messages|
  {
    seq(|messages|, i requires 0 <= i < |messages| => ErrorEntry(now, messages[i]))
  }

  lemma StampedConcat(now: string, level: string, a: seq<string>, b: seq<string>)
    ensures Stamped(now, level, a + b) == Stamped(now, level, a) + Stamped(now, level, b)
    ensures StampedErrors(now, a + b) == StampedErrors(now, a) + StampedErrors(now, b)
    ensures |b| == 1 ==> Stamped(now, level, b) == [LogEntry(now, level, b[0])]
    ensures |b| == 1 ==> StampedErrors(now, b) == [ErrorEntry(now, b[0])]
    ensures Stamped(now, level, []) == [] && StampedErrors(now, []) == []
  {
  }

  /** Logging two batches of messages in a row logs their concatenation. */
  lemma AppendStamped<K>(m: map<K, seq<LogEntry>>, k: K, now: string, level: string, a: seq<string>, b: seq<string>, cap: nat)
    ensures AppendAt(AppendAt(m, k, Stamped(now, level, a), cap), k, Stamped(now, level, b), cap)
      == AppendAt(m, k, Stamped(now, level, a + b), cap)
  {
    StampedConcat(now, level, a, b);
    AppendAtConcat(m, k, Stamped(now, level, a), Stamped(now, level, b), cap);
  }

  /** ... and one more message after a batch extends the batch. */
  lemma AppendStampedOne<K>(m: map<K, seq<LogEntry>>, k: K, now: string, level: string, a: seq<string>, message: string, cap: nat)
    ensures AppendAt(AppendAt(m, k, Stamped(now, level, a), cap), k, [LogEntry(now, level, message)], cap)
      == AppendAt(m, k, Stamped(now, level, a + [message]), cap)
  {
    StampedConcat(now, level, a, [message]);
    AppendAtConcat(m, k, Stamped(now, level, a), [LogEntry(now, level, message)], cap);
  }

  /** The same two facts for error histories. */
  lemma AppendStampedErrors<K>(m: map<K, seq<ErrorEntry>>, k: K, now: string, a: seq<string>, b: seq<string>, cap: nat)
    ensures AppendAt(AppendAt(m, k, StampedErrors(now, a), cap), k, StampedErrors(now, b), cap)
      == AppendAt(m, k, StampedErrors(now, a + b), cap)
  {
    StampedConcat(now, "", a, b);
    AppendAtConcat(m, k, StampedErrors(now, a), StampedErrors(now, b), cap);
  }

  lemma AppendStampedErrorsOne<K>(m: map<K, seq<ErrorEntry>>, k: K, now: string, a: seq<string>, message: string, cap: nat)
    ensures AppendAt(AppendAt(m, k, StampedErrors(now, a), cap), k, [ErrorEntry(now, message)], cap)
      == AppendAt(m, k, StampedErrors(now, a + [message]), cap)
  {
    StampedConcat(now, "", a, [message]);
    AppendAtConcat(m, k, StampedErrors(now, a), [ErrorEntry(now, message)], cap);
  }
}
