/** The string operations the extraction code relies on, on sequences of code points. */
module Text {
  /** `str.isspace` for one character, which is also what `\s` matches. */
  predicate IsSpace(c: char) {
    || ('\t' <= c <= '\r') || ('\U{1c}' <= c <= ' ') || c == '\U{85}' || c == '\U{a0}' || c == '\U{1680}'
    || ('\U{2000}' <= c <= '\U{200a}') || c == '\U{2028}' || c == '\U{2029}' || c == '\U{202f}' || c == '\U{205f}' || c == '\U{3000}'
  }

  ghost predicate AllSpace(s: string, a: nat, b: nat)
    requires b <= |s|
  {
    forall i :: a <= i < b ==> IsSpace(s[i])
  }

  /** A stretch of a text. */
  datatype Span = Span(start: nat, end: nat)

  predicate InText(s: string, p: Span) { p.start <= p.end <= |s| }

  function Slice(s: string, p: Span): string
    requires InText(s, p)
  {
    s[p.start..p.end]
  }

  /** The stretch is empty or begins and ends with a character that is not whitespace. */
  predicate IsTrim(s: string, p: Span)
    requires InText(s, p)
  {
    p.start < p.end ==> !IsSpace(s[p.start]) && !IsSpace(s[p.end - 1])
  }

  // ---------------------------------------------------------------- strip

  function SkipLeft(s: string, a: nat, b: nat): (i: nat)
    requires a <= b <= |s|
    ensures a <= i <= b && AllSpace(s, a, i) && (i < b ==> !IsSpace(s[i]))
    decreases b - a
  {
    if a < b && IsSpace(s[a]) then SkipLeft(s, a + 1, b) else a
  }

  function SkipRight(s: string, a: nat, b: nat): (j: nat)
    requires a <= b <= |s|
    ensures a <= j <= b && AllSpace(s, j, b) && (a < j ==> !IsSpace(s[j - 1]))
    decreases b - a
  {
    if a < b && IsSpace(s[b - 1]) then SkipRight(s, a, b - 1) else b
  }

  /** Where `strip` ends up inside the text: the whitespace-free core of a stretch. */
  function Trim(s: string, p: Span): (t: Span)
    requires InText(s, p)
    ensures p.start <= t.start <= t.end <= p.end && IsTrim(s, t)
    ensures AllSpace(s, p.start, t.start) && AllSpace(s, t.end, p.end)
  {
    var i := SkipLeft(s, p.start, p.end);
    Span(i, SkipRight(s, i, p.end))
  }

  function Strip(s: string): string {
    var t := Trim(s, Span(0, |s|));
    s[t.start..t.end]
  }

  /** Stripping a stretch of a text takes the core of that stretch. */
  lemma StripIsTrim(s: string, p: Span)
    requires InText(s, p)
    ensures Strip(Slice(s, p)) == Slice(s, Trim(s, p))
  {
    hide Trim;
    var k, n := p.start, p.end - p.start;
    TrimShift(s, k, n);
    var t := Trim(s[k..k + n], Span(0, n));
    SliceShift(s, k, n, t.start, t.end);
  }

  lemma TrimShift(s: string, k: nat, n: nat)
    requires k + n <= |s|
    ensures var t := Trim(s[k..k + n], Span(0, n)); Trim(s, Span(k, k + n)) == Span(k + t.start, k + t.end)
  {
    hide SkipLeft, SkipRight;
    LeftShift(s, k, 0, n);
    RightShift(s, k, SkipLeft(s[k..k + n], 0, n), n);
  }

  lemma SliceShift(s: string, k: nat, n: nat, i: nat, j: nat)
    requires i <= j <= n && k + n <= |s|
    ensures s[k + i..k + j] == s[k..k + n][i..j]
  {
    var u := s[k..k + n];
    assert forall x :: 0 <= x < n ==> u[x] == s[k + x];
    assert s[k + i..k + j] == u[i..j];
  }

  lemma {:induction false} LeftShift(s: string, k: nat, a: nat, b: nat)
    requires a <= b && k + b <= |s|
    ensures SkipLeft(s, k + a, k + b) == k + SkipLeft(s[k..k + b], a, b)
    decreases b - a
  {
    if a < b && IsSpace(s[k + a]) { LeftShift(s, k, a + 1, b); }
  }

  lemma {:induction false} RightShift(s: string, k: nat, a: nat, b: nat)
    requires a <= b && k + b <= |s|
    ensures SkipRight(s, k + a, k + b) == k + SkipRight(s[k..k + b], a, b)
    decreases b - a
  {
    if a < b && IsSpace(s[k + b - 1]) {
      RightShift(s, k, a, b - 1);
      RightFewer(s, k, a, b);
    }
  }

  lemma {:induction false} RightFewer(s: string, k: nat, a: nat, b: nat)
    requires a < b && k + b <= |s| && IsSpace(s[k + b - 1])
    ensures SkipRight(s[k..k + b], a, b) == SkipRight(s[k..k + b - 1], a, b - 1)
  {
    SamePrefix(s[k..k + b], s[k..k + b - 1], a, b - 1);
  }

  lemma {:induction false} SamePrefix(u: string, v: string, a: nat, b: nat)
    requires a <= b <= |u| && b <= |v| && u[..b] == v[..b]
    ensures SkipRight(u, a, b) == SkipRight(v, a, b)
    decreases b - a
  {
    if a < b {
      assert u[b - 1] == u[..b][b - 1] == v[..b][b - 1] == v[b - 1];
      if IsSpace(u[b - 1]) {
        assert u[..b - 1] == u[..b][..b - 1] == v[..b][..b - 1] == v[..b - 1];
        SamePrefix(u, v, a, b - 1);
      }
    }
  }

  // ---------------------------------------------------------------- find

  /** The pattern stands at position i. */
  predicate Occurs(s: string, pattern: string, i: nat) {
    i + |pattern| <= |s| && s[i..i + |pattern|] == pattern
  }

  /** The first occurrence at or after a position, or -1. */
  function IndexOf(s: string, pattern: string, i: nat): (at: int)
    ensures at >= 0 ==> i <= at && Occurs(s, pattern, at) && forall j :: i <= j < at ==> !Occurs(s, pattern, j)
    ensures at < 0 ==> at == -1 && forall j :: i <= j ==> !Occurs(s, pattern, j)
    decreases |s| - i
  {
    if i + |pattern| > |s| then -1 else if s[i..i + |pattern|] == pattern then i else IndexOf(s, pattern, i + 1)
  }

  /** `s.find(pattern, cursor)`: the first occurrence at or after the cursor, or -1. */
  method Find(s: string, pattern: string, cursor: nat) returns (at: int)
    ensures at >= 0 ==> cursor <= at && Occurs(s, pattern, at) && forall i :: cursor <= i < at ==> !Occurs(s, pattern, i)
    ensures at < 0 ==> at == -1 && forall i :: cursor <= i ==> !Occurs(s, pattern, i)
  {
    var i := cursor;
    while i + |pattern| <= |s|
      invariant cursor <= i && forall j :: cursor <= j < i ==> !Occurs(s, pattern, j)
      decreases |s| - i
    {
      if s[i..i + |pattern|] == pattern { return i; }
      i := i + 1;
    }
    return -1;
  }

  /** Across whitespace, a pattern that begins with something else is first found where it
      stands. */
  lemma FirstAfterSpace(s: string, pattern: string, cursor: nat, start: nat, at: nat)
    requires cursor <= start && Occurs(s, pattern, start) && pattern != [] && !IsSpace(pattern[0])
    requires AllSpace(s, cursor, start)
    requires cursor <= at && Occurs(s, pattern, at) && forall i :: cursor <= i < at ==> !Occurs(s, pattern, i)
    ensures at == start
  {
    OccursFirst(s, pattern, at);
    if at < start { assert false; }
  }

  lemma OccursFirst(s: string, pattern: string, i: nat)
    requires Occurs(s, pattern, i) && pattern != []
    ensures s[i] == pattern[0]
  {
    assert s[i] == s[i..i + |pattern|][0];
  }
}
