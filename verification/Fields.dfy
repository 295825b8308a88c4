/**
 Splitting a string with `std::getline(stream, field, delimiter)` in a loop. A delimiter at the
 very end of the input closes the last field; it does not open an empty one.
 */
module Fields {
  import opened Decimal

  predicate Free(s: string, d: char) {
    forall i | 0 <= i < |s| :: s[i] != d
  }

  lemma DigitsAreFree(s: string, d: char)
    requires AllDigits(s) && !IsDigit(d)
    ensures Free(s, d)
  {}

  /** Index of the first delimiter, or the length when there is none. */
  function Find(s: string, d: char): (i: nat)
    ensures i <= |s|
    ensures Free(s[..i], d)
    ensures i < |s| ==> s[i] == d
  {
    if s == "" || s[0] == d then 0 else 1 + Find(s[1..], d)
  }

  /** What one `getline` leaves in the stream. */
  function Rest(s: string, d: char): (rest: string)
    requires s != ""
    ensures |rest| < |s|
  {
    if Find(s, d) < |s| then s[Find(s, d) + 1..] else ""
  }

  /** All the fields that the `getline` loop reads. */
  function Split(s: string, d: char): seq<string>
    decreases |s|
  {
    if s == "" then [] else [s[..Find(s, d)]] + Split(Rest(s, d), d)
  }

  /** Every field followed by its delimiter. */
  function Terminated(fields: seq<string>, d: char): string {
    if fields == [] then "" else fields[0] + [d] + Terminated(fields[1..], d)
  }

  lemma {:induction false} FindAtDelimiter(a: string, d: char, tail: string)
    requires Free(a, d)
    ensures Find(a + [d] + tail, d) == |a|
  {
    var s := a + [d] + tail;
    if a != "" {
      assert s[1..] == a[1..] + [d] + tail;
      FindAtDelimiter(a[1..], d, tail);
    }
  }

  /** Two strings cut at their first delimiter agree piece by piece. */
  lemma CutAtFirst(a: string, b: string, d: char, x: string, y: string)
    requires Free(a, d) && Free(b, d)
    requires a + [d] + x == b + [d] + y
    ensures a == b && x == y
  {
    FindAtDelimiter(a, d, x);
    FindAtDelimiter(b, d, y);
    var s := a + [d] + x;
    assert a == s[..|a|] && b == s[..|b|];
    assert x == s[|a| + 1..] && y == s[|b| + 1..];
  }

  /** Fields never contain the delimiter. */
  lemma {:induction false} FieldsAreFree(s: string, d: char)
    ensures forall t | t in Split(s, d) :: Free(t, d)
    decreases |s|
  {
    if s != "" {
      FieldsAreFree(Rest(s, d), d);
    }
  }

  lemma {:induction false} SplitOfTerminated(fields: seq<string>, d: char)
    requires forall t | t in fields :: Free(t, d)
    ensures Split(Terminated(fields, d), d) == fields
  {
    if fields != [] {
      var tail := Terminated(fields[1..], d);
      var s := fields[0] + [d] + tail;
      FindAtDelimiter(fields[0], d, tail);
      assert s[..|fields[0]|] == fields[0];
      assert Rest(s, d) == tail;
      SplitOfTerminated(fields[1..], d);
    }
  }

  lemma TerminatedStep(f: string, fields: seq<string>, d: char)
    ensures Terminated([f] + fields, d) == f + [d] + Terminated(fields, d)
  {
    assert ([f] + fields)[1..] == fields;
  }

  lemma {:induction false} TerminatedAppend(fields: seq<string>, f: string, d: char)
    ensures Terminated(fields + [f], d) == Terminated(fields, d) + f + [d]
  {
    if fields == [] {
      TerminatedStep(f, [], d);
      assert [] + [f] == [f] + [];
    } else {
      var tail := fields[1..] + [f];
      assert fields + [f] == [fields[0]] + tail;
      TerminatedStep(fields[0], tail, d);
      TerminatedAppend(fields[1..], f, d);
    }
  }

  lemma TerminatedFour(a: string, b: string, c: string, e: string, d: char)
    ensures Terminated([a, b, c, e], d) == a + [d] + b + [d] + c + [d] + e + [d]
  {
    TerminatedAppend([], a, d);
    TerminatedAppend([a], b, d);
    TerminatedAppend([a, b], c, d);
    TerminatedAppend([a, b, c], e, d);
    assert [] + [a] == [a] && [a] + [b] == [a, b];
    assert [a, b] + [c] == [a, b, c] && [a, b, c] + [e] == [a, b, c, e];
    assert "" + a == a;
  }

  lemma OnlyField(s: string, d: char)
    requires s != "" && Find(s, d) == |s|
    ensures s[..Find(s, d)] == s && s[|s| - 1] != d
  {}

  lemma CutAt(s: string, i: nat)
    requires i < |s|
    ensures s == s[..i] + [s[i]] + s[i + 1..]
  {}

  lemma FirstField(s: string, d: char)
    requires Find(s, d) < |s|
    ensures s == s[..Find(s, d)] + [d] + Rest(s, d)
  {
    CutAt(s, Find(s, d));
  }

  /** The input with a closing delimiter, whether it had one or not. */
  function WithClosing(s: string, d: char): string {
    if s == "" || s[|s| - 1] == d then s else s + [d]
  }

  lemma CloseRest(f: string, d: char, rest: string)
    ensures f + [d] + WithClosing(rest, d) == WithClosing(f + [d] + rest, d)
  {
    assert rest != "" ==> (f + [d] + rest)[|f + [d] + rest| - 1] == rest[|rest| - 1];
  }

  /** The fields put back together give the input, up to one closing delimiter. */
  lemma {:induction false} TerminatedOfSplit(s: string, d: char)
    ensures Terminated(Split(s, d), d) == WithClosing(s, d)
    decreases |s|
  {
    if s != "" {
      var f, rest := s[..Find(s, d)], Rest(s, d);
      TerminatedOfSplit(rest, d);
      TerminatedStep(f, Split(rest, d), d);
      if Find(s, d) == |s| {
        OnlyField(s, d);
        assert f + [d] + "" == f + [d];
      } else {
        FirstField(s, d);
        CloseRest(f, d, rest);
      }
    }
  }

  /** A closing delimiter after a non-empty last field changes nothing. */
  lemma {:induction false} ClosingDelimiterIsDropped(s: string, d: char)
    requires s != "" && s[|s| - 1] != d
    ensures Split(s + [d], d) == Split(s, d)
  {
    TerminatedOfSplit(s, d);
    FieldsAreFree(s, d);
    SplitOfTerminated(Split(s, d), d);
  }

  /** The `getline` loop. */
  method ReadFields(data: string, d: char) returns (fields: seq<string>)
    ensures fields == Split(data, d)
  {
    fields := [];
    var stream := data;
    while stream != ""
      invariant fields + Split(stream, d) == Split(data, d)
      decreases |stream|
    {
      fields := fields + [stream[..Find(stream, d)]];
      stream := Rest(stream, d);
    }
  }
}
