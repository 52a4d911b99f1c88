/** What one call of the tool does, as a value: the status it returns, the lines it
    writes to standard output, and the directory scans and segment opens it makes.
    Calls compose in sequence with early return on the first error. */
module Runs {
  import opened Errors
  import opened Storage
  import opened Seqs

  /** An access the tool makes to the storage: listing the segments of a directory,
      or opening one segment file. */
  datatype Access = ListSegments(dir: Path) | OpenSegment(path: Path)

  /** The status, the standard-output writes (one element per output statement) and
      the accesses of a call, in order. */
  datatype Run = Run(status: Status, lines: seq<string>, trace: seq<Access>)

  /** Nothing written, nothing accessed, success. */
  function Done(): Run
  {
    Run(Ok, [], [])
  }

  /** One line written. */
  function Emit(line: string): Run
  {
    Run(Ok, [line], [])
  }

  /** An early return with `s`, having written and accessed nothing. */
  function Fail(s: Status): Run
  {
    Run(s, [], [])
  }

  /** `a` followed by `b`, unless `a` returned an error: then `b` never happens. */
  function Then(a: Run, b: Run): (r: Run)
    ensures r.status == (if a.status.Error? then a.status else b.status)
    ensures r.lines == (if a.status.Error? then a.lines else a.lines + b.lines)
    ensures r.trace == (if a.status.Error? then a.trace else a.trace + b.trace)
  {
    if a.status.Error? then a else Run(b.status, a.lines + b.lines, a.trace + b.trace)
  }

  /** Having written `a`'s lines and then `b`'s (and made their accesses) is having
      done `Then(a, b)`, when `a` succeeds. */
  lemma ThenExtends(out: seq<string>, trace: seq<Access>, a: Run, b: Run)
    requires a.status.Ok?
    ensures out + a.lines + b.lines == out + Then(a, b).lines
    ensures trace + a.trace + b.trace == trace + Then(a, b).trace
    ensures b.lines == [] ==> out + a.lines == out + Then(a, b).lines
    ensures a.trace == [] ==> trace + b.trace == trace + Then(a, b).trace
    ensures b.trace == [] ==> trace + a.trace == trace + Then(a, b).trace
  {
    assert b.lines == [] ==> a.lines + b.lines == a.lines;
    assert a.trace == [] ==> a.trace + b.trace == b.trace;
    assert b.trace == [] ==> a.trace + b.trace == a.trace;
  }

  /** `step` applied to each item in order, stopping at the first error. */
  function Sequence<T>(items: seq<T>, step: T -> Run): Run
  {
    if items == [] then Done()
    else Then(Sequence(items[..|items| - 1], step), step(items[|items| - 1]))
  }

  /** One more item of a loop. */
  lemma SequenceStep<T>(items: seq<T>, step: T -> Run, i: nat)
    requires i < |items|
    ensures Sequence(items[..i + 1], step) == Then(Sequence(items[..i], step), step(items[i]))
  {
    assert items[..i + 1][..i] == items[..i];
  }

  /** Once a prefix of the items returned an error, the rest are never run. */
  lemma {:induction false} SequenceStops<T>(items: seq<T>, step: T -> Run, n: nat)
    requires n <= |items|
    requires Sequence(items[..n], step).status.Error?
    ensures Sequence(items, step) == Sequence(items[..n], step)
    decreases |items| - n
  {
    if n < |items| {
      SequenceStep(items, step, n);
      SequenceStops(items, step, n + 1);
    } else {
      assert items[..n] == items;
    }
  }

  lemma ThenDone(a: Run)
    ensures Then(a, Done()) == a
  {
    assert a.lines + [] == a.lines && a.trace + [] == a.trace;
  }

  /** Skipping the items `keep` rejects inside the loop (a `continue`) is the same as
      filtering them out first. */
  lemma {:induction false} SequenceSkips<T(!new)>(items: seq<T>, keep: T -> bool, f: T -> Run, g: T -> Run)
    requires forall x :: x in items ==> g(x) == if keep(x) then f(x) else Done()
    ensures Sequence(items, g) == Sequence(Filter(items, keep), f)
  {
    if items != [] {
      var init, last := items[..|items| - 1], items[|items| - 1];
      assert forall x :: x in init ==> x in items;
      SequenceSkips(init, keep, f, g);
      var before := Filter(init, keep);
      assert g(last) == if keep(last) then f(last) else Done();
      assert Sequence(items, g) == Then(Sequence(before, f), g(last));
      if keep(last) {
        var kept := before + [last];
        assert Filter(items, keep) == kept;
        assert kept[..|kept| - 1] == before;
      } else {
        assert Filter(items, keep) == before;
        ThenDone(Sequence(before, f));
      }
    }
  }

  /** When every item only writes one line, the sequence writes one line per item,
      in order, and succeeds. */
  lemma {:induction false} SequenceEmits<T>(items: seq<T>, step: T -> Run, render: T -> string)
    requires forall x :: x in items ==> step(x) == Emit(render(x))
    ensures Sequence(items, step) == Run(Ok, Map(items, render), [])
  {
    if items != [] {
      var init := items[..|items| - 1];
      assert forall x :: x in init ==> x in items;
      SequenceEmits(init, step, render);
    }
  }

  /** When every item makes exactly one access, the accesses of the sequence are
      those of the items run so far, in order: all of them when it succeeds. */
  lemma {:induction false} SequenceOneAccessEach<T>(items: seq<T>, step: T -> Run, access: T -> Access)
    requires forall x :: x in items ==> step(x).trace == [access(x)]
    ensures var r := Sequence(items, step);
      r.trace <= Map(items, access) && (r.status.Ok? ==> r.trace == Map(items, access))
  {
    if items != [] {
      var init := items[..|items| - 1];
      assert forall x :: x in init ==> x in items;
      SequenceOneAccessEach(init, step, access);
      var m := Map(items, access);
      assert m[..|m| - 1] == Map(init, access);
    }
  }

  /** Every access of a sequence is made by one of its items. */
  lemma {:induction false} SequenceTraceFrom<T>(items: seq<T>, step: T -> Run, a: Access)
    requires a in Sequence(items, step).trace
    ensures exists x :: x in items && a in step(x).trace
  {
    var init := items[..|items| - 1];
    if a in Sequence(init, step).trace {
      SequenceTraceFrom(init, step, a);
      var x :| x in init && a in step(x).trace;
      assert x in items;
    } else {
      assert items[|items| - 1] in items;
    }
  }

  /** A prefix stays a prefix when both sides get the same first element. */
  lemma PrefixAfter<U>(x: U, a: seq<U>, b: seq<U>)
    requires a <= b
    ensures [x] + a <= [x] + b
  {
    assert ([x] + b)[..1 + |a|] == [x] + b[..|a|];
  }
}
