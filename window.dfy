/**
  Window selection for the summary command: the slice `chat_buffer[-count:]`
  with Python's list-slicing rules, then the comprehension that keeps the
  lines that are not blank and do not start with "/".
 */
module Window {
  import opened PyText

  /** Python's `xs[start:]` on a list: a negative start counts from the end,
      and a start outside the list is clamped to its ends. */
  function SliceFrom<T>(xs: seq<T>, start: int): (r: seq<T>)
    ensures |r| <= |xs| && r == xs[|xs| - |r|..]
    ensures 0 <= start <= |xs| ==> |r| == |xs| - start
    ensures start < 0 ==> |r| == if -start < |xs| then -start else |xs|
  {
    var n := |xs|;
    var i :=
      if start < 0 then (if start + n < 0 then 0 else start + n)
      else if start > n then n
      else start;
    xs[i..]
  }

  /** `xs[-count:]`, the slice the summary command reads: a suffix of `xs`,
      of `min(count, |xs|)` elements for a positive count (`TailCases` gives
      every sign). */
  function Tail<T>(xs: seq<T>, count: int): (r: seq<T>)
  {
    SliceFrom(xs, -count)
  }

  /** What `xs[-count:]` evaluates to, case by case on the sign of `count`:
      the last `min(count, |xs|)` elements for a positive count, all of `xs`
      for zero (since `-0` is `0`), and `xs` without its first `-count`
      elements for a negative count. */
  lemma TailCases<T>(xs: seq<T>, count: int)
    ensures count > 0 && count <= |xs| ==> Tail(xs, count) == xs[|xs| - count..]
    ensures count > |xs| ==> Tail(xs, count) == xs
    ensures count == 0 ==> Tail(xs, count) == xs
    ensures count < 0 && -count < |xs| ==> Tail(xs, count) == xs[-count..]
    ensures count < 0 && -count >= |xs| ==> Tail(xs, count) == []
  {
  }

  /** The test of the comprehension: `m.strip() and not m.startswith("/")`. */
  predicate Keep(m: string)
  {
    Strip(m) != [] && !StartsWith(m, "/")
  }

  /** `r` can be obtained from `xs` by deleting elements, keeping the order. */
  ghost predicate IsSubsequence<T>(r: seq<T>, xs: seq<T>)
    decreases |xs|
  {
    if r == [] then true
    else if xs == [] then false
    else (r[0] == xs[0] && IsSubsequence(r[1..], xs[1..])) || IsSubsequence(r, xs[1..])
  }

  /** `[m for m in xs if Keep(m)]`: lines of `xs`, in their order, all of
      which pass the test. */
  function Filter(xs: seq<string>): (r: seq<string>)
    ensures |r| <= |xs|
    ensures IsSubsequence(r, xs)
    ensures forall k :: 0 <= k < |r| ==> Keep(r[k])
  {
    if xs == [] then []
    else
      var rest := Filter(xs[1..]);
      if Keep(xs[0]) then [xs[0]] + rest else rest
  }

  /** Each line passing the test occurs in `Filter(xs)` as often as in `xs`,
      and no other line occurs in it. */
  lemma {:induction false} FilterCount(xs: seq<string>, m: string)
    ensures multiset(Filter(xs))[m] == if Keep(m) then multiset(xs)[m] else 0
  {
    if xs != [] {
      FilterCount(xs[1..], m);
      assert xs == [xs[0]] + xs[1..];
      if Keep(xs[0]) {
        assert Filter(xs) == [xs[0]] + Filter(xs[1..]);
      }
    }
  }

  /** A subsequence holds no element more often than the sequence it comes from. */
  lemma {:induction false} SubsequenceMultiset<T>(r: seq<T>, xs: seq<T>)
    requires IsSubsequence(r, xs)
    ensures multiset(r) <= multiset(xs)
    decreases |xs|
  {
    if r != [] {
      assert xs == [xs[0]] + xs[1..];
      if r[0] == xs[0] && IsSubsequence(r[1..], xs[1..]) {
        SubsequenceMultiset(r[1..], xs[1..]);
        assert r == [r[0]] + r[1..];
      } else {
        SubsequenceMultiset(r, xs[1..]);
      }
    }
  }

  /** `Filter` is the only order-preserving selection from `xs` that keeps
      exactly the lines passing the test: any subsequence of `xs` holding
      every kept line as often as `xs` does, and no other line, is `Filter(xs)`. */
  lemma {:induction false} FilterUnique(xs: seq<string>, r: seq<string>)
    requires IsSubsequence(r, xs)
    requires forall m :: multiset(r)[m] == if Keep(m) then multiset(xs)[m] else 0
    ensures r == Filter(xs)
    decreases |xs|
  {
    if xs == [] {
      return;
    }
    var x, t := xs[0], xs[1..];
    assert xs == [x] + t;
    assert multiset(xs) == multiset{x} + multiset(t);
    if r == [] {
      assert !Keep(x);
      FilterUnique(t, r);
    } else if Keep(x) {
      if r[0] == x && IsSubsequence(r[1..], t) {
        var r' := r[1..];
        assert r == [x] + r';
        assert multiset(r) == multiset{x} + multiset(r');
        FilterUnique(t, r');
      } else {
        assert IsSubsequence(r, t);
        SubsequenceMultiset(r, t);
        assert false;
      }
    } else {
      if r[0] == x {
        assert false;
      }
      assert IsSubsequence(r, t);
      forall m ensures multiset(r)[m] == if Keep(m) then multiset(t)[m] else 0 {
        if Keep(m) { assert m != x; }
      }
      FilterUnique(t, r);
    }
  }

  /** `[m for m in chat_buffer[-count:] if m.strip() and not m.startswith("/")]`. */
  function SelectWindow(buffer: seq<string>, count: int): (r: seq<string>)
    ensures count >= 1 ==> |r| <= count
    ensures IsSubsequence(r, Tail(buffer, count))
    ensures forall k :: 0 <= k < |r| ==> Keep(r[k])
  {
    Filter(Tail(buffer, count))
  }

  /** The selection holds exactly the slice's lines that pass the test, each
      as often as the slice does. */
  lemma SelectWindowCount(buffer: seq<string>, count: int, m: string)
    ensures multiset(SelectWindow(buffer, count))[m] ==
      if Keep(m) then multiset(Tail(buffer, count))[m] else 0
  {
    FilterCount(Tail(buffer, count), m);
  }

  /** Nothing is selected from an empty buffer, whatever the count. */
  lemma EmptyBufferSelectsNothing(count: int)
    ensures SelectWindow([], count) == []
  {
  }

  /** A selected line is one of the last `count` lines of the buffer when
      `count` is positive. */
  lemma {:induction false} SelectedFromLast(buffer: seq<string>, count: int, m: string)
    requires count >= 1
    requires m in SelectWindow(buffer, count)
    ensures m in buffer[|buffer| - (if count < |buffer| then count else |buffer|)..]
  {
    var w := SelectWindow(buffer, count);
    var tail := Tail(buffer, count);
    SelectWindowCount(buffer, count, m);
    assert multiset(w)[m] > 0;
    assert multiset(tail)[m] > 0;
    assert tail == buffer[|buffer| - (if count < |buffer| then count else |buffer|)..];
  }

  /** Lines of the buffer that would be kept are selected iff they are in the
      slice, and a line that would not be kept is never selected. */
  lemma SelectedIff(buffer: seq<string>, count: int, m: string)
    ensures m in SelectWindow(buffer, count) <==> m in Tail(buffer, count) && Keep(m)
  {
    var w := SelectWindow(buffer, count);
    SelectWindowCount(buffer, count, m);
    assert m in w <==> multiset(w)[m] > 0;
    assert m in Tail(buffer, count) <==> multiset(Tail(buffer, count))[m] > 0;
  }

  /** A line whose first character is neither whitespace nor "/" is kept. */
  lemma KeptLine(m: string)
    requires m != [] && !IsSpace(m[0]) && m[0] != '/'
    ensures Keep(m)
  {
    StripBlank(m);
  }

  /** The example of a buffer ending in a command echo: asking for five lines
      gives the two chat lines and drops "/sum 2". */
  lemma CommandEchoDropped()
    ensures SelectWindow(["A: hi", "B: yo", "/sum 2"], 5) == ["A: hi", "B: yo"]
  {
    var a, b, c := "A: hi", "B: yo", "/sum 2";
    var buffer := [a, b, c];
    assert Tail(buffer, 5) == buffer;
    KeptLine(a);
    KeptLine(b);
    assert !Keep(c) by {
      assert StartsWith(c, "/");
    }
    assert buffer[1..] == [b, c] && buffer[1..][1..] == [c] && [c][1..] == [];
    assert Filter([c]) == [];
    assert Filter([b, c]) == [b];
    assert Filter(buffer) == [a, b];
  }
}
