/** Scope candidates: the validator of structured output, and the line fallback whose candidates
    it always accepts. */
module Structure {
  import opened Common
  import opened Text
  import Chunks

  datatype DocChunk = DocChunk(id: nat, text: string, start: nat, end: nat)

  datatype Candidate = Candidate(key: string, itemType: string, text: string, chunk: nat, start: int, end: int)

  /** One item of a model's payload; a missing field or one of another type is `None`. */
  datatype Raw = Raw(key: Option<string>, itemType: Option<string>, text: Option<string>, chunk: Option<nat>, start: Option<int>, end: Option<int>)

  const MAX_ITEMS: nat := 500

  // ---------------------------------------------------------------- the validator

  /** The chunk a dictionary by id holds: the last one with that id. */
  function Lookup(chunks: seq<DocChunk>, id: nat): Option<DocChunk> {
    if chunks == [] then None
    else if chunks[|chunks| - 1].id == id then Some(chunks[|chunks| - 1])
    else Lookup(chunks[..|chunks| - 1], id)
  }

  function Least(a: int, b: int): int { if a <= b then a else b }

  /** `text[a:b]`: bounds past the end are clipped. */
  function Clip(s: string, a: nat, b: nat): string
    requires a <= b
  {
    s[Least(a, |s|)..Least(b, |s|)]
  }

  /** The span lies in its chunk and reads the item's text there. */
  predicate IsGrounded(c: DocChunk, text: string, start: int, end: int) {
    && 0 <= start < end && c.start <= start && end <= c.end
    && Strip(Clip(c.text, start - c.start, end - c.start)) == Strip(text)
  }

  predicate IsComplete(r: Raw) { r.key.Some? && r.itemType.Some? && r.text.Some? && r.chunk.Some? && r.start.Some? && r.end.Some? }

  /** Everything but the key's uniqueness. */
  predicate IsAcceptable(r: Raw, chunks: seq<DocChunk>) {
    && IsComplete(r)
    && r.key.value != "" && r.itemType.value != "" && Strip(r.text.value) != ""
    && Lookup(chunks, r.chunk.value).Some?
    && IsGrounded(Lookup(chunks, r.chunk.value).value, r.text.value, r.start.value, r.end.value)
  }

  function Accepted(r: Raw): Candidate
    requires IsComplete(r)
  {
    Candidate(r.key.value, r.itemType.value, r.text.value, r.chunk.value, r.start.value, r.end.value)
  }

  /** The payload is small, every item is acceptable and no key repeats. */
  ghost predicate IsValidPayload(payload: seq<Raw>, chunks: seq<DocChunk>) {
    && |payload| <= MAX_ITEMS
    && (forall i :: 0 <= i < |payload| ==> IsAcceptable(payload[i], chunks))
    && (forall i, j :: 0 <= i < j < |payload| ==> payload[i].key != payload[j].key)
  }

  /** Exactly the valid payloads are accepted; their items come back in order. */
  method ValidateOutput(payload: seq<Raw>, chunks: seq<DocChunk>) returns (result: Option<seq<Candidate>>)
    ensures result.Some? <==> IsValidPayload(payload, chunks)
    ensures result.Some? ==> |result.value| == |payload|
    ensures result.Some? ==> forall i :: 0 <= i < |payload| ==>
              var c := result.value[i];
              payload[i] == Raw(Some(c.key), Some(c.itemType), Some(c.text), Some(c.chunk), Some(c.start), Some(c.end))
  {
    hide IsGrounded, Strip, Lookup;
    if |payload| > MAX_ITEMS { return None; }
    var items, keys, i := [], {}, 0;
    while i < |payload|
      invariant 0 <= i <= |payload| && |items| == i
      invariant forall k :: 0 <= k < i ==> IsAcceptable(payload[k], chunks) && items[k] == Accepted(payload[k])
      invariant forall k :: 0 <= k < i ==> payload[k].key.value in keys
      invariant forall key :: key in keys ==> exists k :: 0 <= k < i && payload[k].key == Some(key)
      invariant forall j, k :: 0 <= j < k < i ==> payload[j].key != payload[k].key
    {
      var r := payload[i];
      if r.key.None? || r.key.value == "" || r.key.value in keys { return None; }
      if r.itemType.None? || r.itemType.value == "" || r.text.None? || Strip(r.text.value) == "" { return None; }
      if r.chunk.None? || Lookup(chunks, r.chunk.value).None? { return None; }
      if r.start.None? || r.end.None? { return None; }
      if !IsGrounded(Lookup(chunks, r.chunk.value).value, r.text.value, r.start.value, r.end.value) { return None; }
      keys := keys + {r.key.value};
      items := items + [Accepted(r)];
      i := i + 1;
    }
    return Some(items);
  }

  // ---------------------------------------------------------------- lines and slugs

  predicate IsLineBreak(c: char) {
    ('\n' <= c <= '\r') || ('\U{1c}' <= c <= '\U{1e}') || c == '\U{85}' || c == '\U{2028}' || c == '\U{2029}'
  }

  /** Just past the line that holds position i. */
  function LineEnd(s: string, i: nat): (e: nat)
    requires i < |s|
    ensures i < e <= |s|
    decreases |s| - i
  {
    if IsLineBreak(s[i]) then (if s[i] == '\r' && i + 1 < |s| && s[i + 1] == '\n' then i + 2 else i + 1)
    else if i + 1 == |s| then i + 1
    else LineEnd(s, i + 1)
  }

  /** `splitlines(keepends=True)` */
  function Lines(s: string, from: nat): seq<string>
    requires from <= |s|
    decreases |s| - from
  {
    if from == |s| then [] else [s[from..LineEnd(s, from)]] + Lines(s, LineEnd(s, from))
  }

  predicate StartsWith(s: string, prefix: string) { |prefix| <= |s| && s[..|prefix|] == prefix }

  predicate Contains(s: string, part: string) { exists i :: 0 <= i <= |s| && Occurs(s, part, i) }

  function DropHashes(s: string): string { if s != [] && s[0] == '#' then DropHashes(s[1..]) else s }

  predicate IsSlugChar(c: char) { 'a' <= c <= 'z' || '0' <= c <= '9' }

  /** Every run of other characters becomes one dash. */
  function Dashed(s: string, inRun: bool): string {
    if s == [] then []
    else if IsSlugChar(s[0]) then [s[0]] + Dashed(s[1..], false)
    else (if inRun then [] else ['-']) + Dashed(s[1..], true)
  }

  function DropDashes(s: string): string { if s != [] && s[0] == '-' then DropDashes(s[1..]) else s }

  function DropLastDashes(s: string): string { if s != [] && s[|s| - 1] == '-' then DropLastDashes(s[..|s| - 1]) else s }

  function Slug(lowered: string): (slug: string)
    ensures slug != ""
  {
    var dashed := DropLastDashes(DropDashes(Dashed(lowered, false)));
    var cut := if |dashed| > 120 then dashed[..120] else dashed;
    if cut == "" then "scope" else cut
  }

  // ---------------------------------------------------------------- what a slug says

  /** The letters and digits of a text, in order. */
  function Kept(s: string): string {
    if s == [] then [] else (if 'a' <= s[0] <= 'z' || '0' <= s[0] <= '9' then [s[0]] else []) + Kept(s[1..])
  }

  /** Letters, digits and single dashes. */
  predicate IsSlugged(s: string) {
    && (forall i :: 0 <= i < |s| ==> 'a' <= s[i] <= 'z' || '0' <= s[i] <= '9' || s[i] == '-')
    && (forall i :: 0 <= i < |s| - 1 ==> s[i] != '-' || s[i + 1] != '-')
  }

  lemma {:induction false} KeptJoins(a: string, b: string)
    ensures Kept(a + b) == Kept(a) + Kept(b)
  {
    if a == [] {
      assert a + b == b;
    } else {
      KeptJoins(a[1..], b);
      assert (a + b)[1..] == a[1..] + b;
    }
  }

  lemma {:induction false} DashedIsSlugged(s: string, inRun: bool)
    ensures IsSlugged(Dashed(s, inRun)) && Kept(Dashed(s, inRun)) == Kept(s)
    ensures inRun && Dashed(s, inRun) != [] ==> Dashed(s, inRun)[0] != '-'
  {
    if s != [] {
      var letter := IsSlugChar(s[0]);
      DashedIsSlugged(s[1..], !letter);
      var head: string := if letter then [s[0]] else if inRun then [] else ['-'];
      KeptJoins(head, Dashed(s[1..], !letter));
      assert Dashed(s, inRun) == head + Dashed(s[1..], !letter);
    }
  }

  lemma {:induction false} FrontDropped(s: string)
    requires IsSlugged(s)
    ensures IsSlugged(DropDashes(s)) && Kept(DropDashes(s)) == Kept(s) && (DropDashes(s) != [] ==> DropDashes(s)[0] != '-')
  {
    if s != [] && s[0] == '-' { FrontDropped(s[1..]); }
  }

  lemma {:induction false} BackDropped(s: string)
    requires IsSlugged(s) && (s != [] ==> s[0] != '-')
    ensures IsSlugged(DropLastDashes(s)) && Kept(DropLastDashes(s)) == Kept(s) && (DropLastDashes(s) != [] ==> DropLastDashes(s)[0] != '-')
    ensures DropLastDashes(s) != [] ==> DropLastDashes(s)[|DropLastDashes(s)| - 1] != '-'
  {
    if s != [] && s[|s| - 1] == '-' {
      BackDropped(s[..|s| - 1]);
      KeptJoins(s[..|s| - 1], ['-']);
      assert s == s[..|s| - 1] + ['-'];
    }
  }

  /** A slug is at most 120 letters, digits and single dashes, does not begin with a dash, and holds
      the first of the text's letters and digits in order: all of them unless it was cut. A text
      without any is called "scope". */
  lemma SlugSays(lowered: string)
    ensures var slug := Slug(lowered);
            if Kept(lowered) == "" then slug == "scope"
            else
              && IsSlugged(slug) && 0 < |slug| <= 120 && slug[0] != '-'
              && Kept(slug) <= Kept(lowered) && (|slug| < 120 ==> Kept(slug) == Kept(lowered) && slug[|slug| - 1] != '-')
  {
    hide Dashed, DropDashes, DropLastDashes, Kept;
    var dashes := Dashed(lowered, false);
    DashedIsSlugged(lowered, false);
    FrontDropped(dashes);
    BackDropped(DropDashes(dashes));
    var dashed := DropLastDashes(DropDashes(dashes));
    NothingKept(dashed);
    var cut := if |dashed| > 120 then dashed[..120] else dashed;
    assert dashed == cut + dashed[|cut|..];
    KeptJoins(cut, dashed[|cut|..]);
  }

  lemma NothingKept(s: string)
    requires IsSlugged(s) && (s != [] ==> s[0] != '-')
    ensures Kept(s) == "" <==> s == ""
  {}

  // ---------------------------------------------------------------- fresh keys

  function Digit(d: nat): char
    requires d < 10
  {
    (d as char) + '0'
  }

  /** `str(n)` */
  function Numeral(n: nat): (s: string)
    ensures s != ""
  {
    if n < 10 then [Digit(n)] else Numeral(n / 10) + [Digit(n % 10)]
  }

  lemma {:induction false} NumeralsDiffer(m: nat, n: nat)
    requires Numeral(m) == Numeral(n)
    ensures m == n
    decreases m + n
  {
    var s := Numeral(m);
    assert s[|s| - 1] == Digit(m % 10) && s[|s| - 1] == Digit(n % 10);
    if m >= 10 && n >= 10 {
      assert Numeral(m / 10) == s[..|s| - 1] == Numeral(n / 10);
      NumeralsDiffer(m / 10, n / 10);
    }
  }

  /** The number a row of decimal digits stands for. */
  function Value(s: string): int {
    if s == [] then 0 else 10 * Value(s[..|s| - 1]) + (s[|s| - 1] as int - '0' as int)
  }

  /** A numeral is digits that stand for its number, without a leading zero. */
  lemma {:induction false} NumeralReadsBack(n: nat)
    ensures Value(Numeral(n)) == n && forall i :: 0 <= i < |Numeral(n)| ==> '0' <= Numeral(n)[i] <= '9'
    ensures n > 0 ==> Numeral(n)[0] != '0'
  {
    if n >= 10 {
      NumeralReadsBack(n / 10);
      var s := Numeral(n);
      assert s[..|s| - 1] == Numeral(n / 10) && s[|s| - 1] == Digit(n % 10);
    } else {
      assert Value([]) == 0 && [Digit(n)][..0] == [];
    }
  }

  function Suffixed(base: string, n: nat): string { base + "-" + Numeral(n) }

  lemma SuffixesDiffer(base: string, m: nat, n: nat)
    requires Suffixed(base, m) == Suffixed(base, n)
    ensures m == n
  {
    assert Suffixed(base, m)[|base| + 1..] == Numeral(m);
    assert Suffixed(base, n)[|base| + 1..] == Numeral(n);
    NumeralsDiffer(m, n);
  }

  /** Taken keys that a search from n on can still meet. */
  ghost function Ahead(base: string, seen: set<string>, n: nat): set<string> {
    set k | k in seen && exists m :: m >= n && k == Suffixed(base, m)
  }

  /** Meeting one taken key leaves fewer to meet: the search ends. */
  lemma OneFewer(base: string, seen: set<string>, n: nat)
    requires Suffixed(base, n) in seen
    ensures |Ahead(base, seen, n + 1)| < |Ahead(base, seen, n)|
  {
    var k := Suffixed(base, n);
    forall m | m >= n + 1 ensures Suffixed(base, m) != k {
      if Suffixed(base, m) == k { SuffixesDiffer(base, m, n); }
    }
    assert k in Ahead(base, seen, n) && k !in Ahead(base, seen, n + 1);
    SubsetSize(Ahead(base, seen, n + 1), Ahead(base, seen, n) - {k});
  }

  /** The key a section and slug get when some are already taken. */
  ghost predicate IsFreeKey(key: string, base: string, seen: set<string>) {
    if base !in seen then key == base
    else exists n: nat :: n >= 2 && key == Suffixed(base, n) && key !in seen && forall m: nat :: 2 <= m < n ==> Suffixed(base, m) in seen
  }

  method FreeKey(base: string, seen: set<string>) returns (key: string)
    ensures IsFreeKey(key, base, seen) && key !in seen
  {
    hide Suffixed;
    key := base;
    var suffix := 2;
    while key in seen
      invariant suffix >= 2
      invariant suffix == 2 ==> key == base
      invariant suffix > 2 ==> key == Suffixed(base, suffix - 1) && base in seen
      invariant forall m: nat :: 2 <= m < suffix - 1 ==> Suffixed(base, m) in seen
      decreases suffix == 2, |Ahead(base, seen, if suffix == 2 then 2 else suffix - 1)|
    {
      if suffix > 2 { OneFewer(base, seen, suffix - 1); }
      key := Suffixed(base, suffix);
      suffix := suffix + 1;
    }
  }

  // ---------------------------------------------------------------- the line fallback

  /** A bullet's text and where it stands in the document. */
  datatype Found = Found(section: string, exact: string, chunk: nat, start: nat)

  function NextSection(stripped: string, section: string, lower: string -> string): string {
    if !StartsWith(stripped, "#") then section
    else
      var heading := lower(Strip(DropHashes(stripped)));
      if Contains(heading, "included") then "included"
      else if Contains(heading, "excluded") then "excluded"
      else if Contains(heading, "commercial") then "commercial"
      else section
  }

  predicate IsBullet(stripped: string) {
    !StartsWith(stripped, "#") && (StartsWith(stripped, "- ") || StartsWith(stripped, "* ")) && |stripped| > 2
  }

  function BulletText(line: string): string
    requires IsBullet(Strip(line))
  {
    Strip(Strip(line)[2..])
  }

  /** What one line adds. */
  function FoundIn(line: string, section: string, c: DocChunk, from: nat): seq<Found> {
    if !IsBullet(Strip(line)) then []
    else
      var at := IndexOf(line, BulletText(line), 0);
      if at < 0 then [] else [Found(section, BulletText(line), c.id, c.start + from + at)]
  }

  function VisitFrom(found: seq<Found>, section: string, c: DocChunk, from: nat, lower: string -> string): seq<Found>
    requires from <= |c.text|
    decreases |c.text| - from
  {
    if from == |c.text| then found
    else
      var line := c.text[from..LineEnd(c.text, from)];
      VisitFrom(found + FoundIn(line, section, c, from), NextSection(Strip(line), section, lower), c, LineEnd(c.text, from), lower)
  }

  /** The bullets of every chunk, each section starting over with the chunk. */
  function Bullets(found: seq<Found>, chunks: seq<DocChunk>, lower: string -> string): seq<Found>
    decreases |chunks|
  {
    if chunks == [] then found else Bullets(VisitFrom(found, "assumption", chunks[0], 0, lower), chunks[1..], lower)
  }

  function Keys(candidates: seq<Candidate>): set<string> { set c | c in candidates :: c.key }

  /** A candidate carries its bullet, and the first free key for its section and slug. */
  ghost predicate Carries(candidates: seq<Candidate>, i: nat, f: Found, lower: string -> string)
    requires i < |candidates|
  {
    var c := candidates[i];
    && c == Candidate(c.key, f.section, f.exact, f.chunk, f.start, f.start + |f.exact|)
    && IsFreeKey(c.key, f.section + "-" + Slug(lower(f.exact)), Keys(candidates[..i]))
    && c.key !in Keys(candidates[..i])
  }

  ghost predicate IsFallback(candidates: seq<Candidate>, found: seq<Found>, lower: string -> string) {
    |candidates| == |found| && forall i :: 0 <= i < |found| ==> Carries(candidates, i, found[i], lower)
  }

  method SplitLines(s: string) returns (lines: seq<string>)
    ensures lines == Lines(s, 0)
  {
    hide LineEnd;
    lines := [];
    var from: nat := 0;
    while from < |s|
      invariant from <= |s| && lines + Lines(s, from) == Lines(s, 0)
      decreases |s| - from
    {
      var end := LineEnd(s, from);
      assert lines + Lines(s, from) == (lines + [s[from..end]]) + Lines(s, end);
      lines := lines + [s[from..end]];
      from := end;
    }
  }

  /** Adds a bullet's candidate to the list. */
  method AddCandidate(candidates: seq<Candidate>, seen: set<string>, ghost found: seq<Found>, f: Found, lower: string -> string)
    returns (candidates': seq<Candidate>, seen': set<string>)
    requires IsFallback(candidates, found, lower) && seen == Keys(candidates)
    ensures IsFallback(candidates', found + [f], lower) && seen' == Keys(candidates')
  {
    hide IsFreeKey, Slug;
    var key := FreeKey(f.section + "-" + Slug(lower(f.exact)), seen);
    var c := Candidate(key, f.section, f.exact, f.chunk, f.start, f.start + |f.exact|);
    candidates' := candidates + [c];
    seen' := seen + {key};
    assert candidates'[..|candidates|] == candidates;
    forall i | 0 <= i < |candidates| ensures Carries(candidates', i, found[i], lower) {
      assert candidates'[..i] == candidates[..i];
      assert Carries(candidates, i, found[i], lower);
    }
  }

  method LineCandidates(chunks: seq<DocChunk>, lower: string -> string) returns (candidates: seq<Candidate>)
    ensures IsFallback(candidates, Bullets([], chunks, lower), lower)
  {
    hide IsFallback, VisitFrom;
    candidates := [];
    var seen := {};
    ghost var found: seq<Found> := [];
    NoneYet(lower);
    var k := 0;
    while k < |chunks|
      invariant 0 <= k <= |chunks|
      invariant IsFallback(candidates, found, lower) && seen == Keys(candidates)
      invariant Bullets(found, chunks[k..], lower) == Bullets([], chunks, lower)
    {
      assert chunks[k..][0] == chunks[k] && chunks[k..][1..] == chunks[k + 1..];
      ghost var before := found;
      candidates, seen, found := ChunkCandidates(candidates, seen, found, chunks[k], lower);
      assert found == VisitFrom(before, "assumption", chunks[k], 0, lower);
      k := k + 1;
    }
  }

  lemma NoneYet(lower: string -> string)
    ensures IsFallback([], [], lower) && Keys([]) == {}
  {}

  method ChunkCandidates(candidates: seq<Candidate>, seen: set<string>, ghost found: seq<Found>, c: DocChunk, lower: string -> string)
    returns (candidates': seq<Candidate>, seen': set<string>, ghost found': seq<Found>)
    requires IsFallback(candidates, found, lower) && seen == Keys(candidates)
    ensures IsFallback(candidates', found', lower) && seen' == Keys(candidates')
    ensures found' == VisitFrom(found, "assumption", c, 0, lower)
  {
    hide IsFallback, Strip, Contains, StartsWith, LineEnd, NextSection;
    candidates', seen', found' := candidates, seen, found;
    var section, cursor: nat := "assumption", 0;
    var lines := SplitLines(c.text);
    var i := 0;
    while i < |lines|
      invariant 0 <= i <= |lines| && cursor <= |c.text| && lines[i..] == Lines(c.text, cursor)
      invariant IsFallback(candidates', found', lower) && seen' == Keys(candidates')
      invariant VisitFrom(found', section, c, cursor, lower) == VisitFrom(found, "assumption", c, 0, lower)
    {
      var line := lines[i];
      LineHere(c.text, cursor, lines, i);
      var stripped := Strip(line);
      if IsBullet(stripped) {
        var exact := Strip(stripped[2..]);
        var relative := Find(line, exact, 0);
        if relative >= 0 {
          var f := Found(section, exact, c.id, c.start + cursor + relative);
          assert FoundIn(line, section, c, cursor) == [f];
          candidates', seen' := AddCandidate(candidates', seen', found', f, lower);
          found' := found' + [f];
        } else {
          assert found' + [] == found';
        }
      } else {
        assert found' + [] == found';
      }
      section := NextSection(stripped, section, lower);
      cursor := cursor + |line|;
      i := i + 1;
    }
  }

  lemma LineHere(s: string, from: nat, lines: seq<string>, i: nat)
    requires from <= |s| && i < |lines| && lines[i..] == Lines(s, from)
    ensures from < |s| && lines[i] == s[from..LineEnd(s, from)] && from + |lines[i]| == LineEnd(s, from)
    ensures lines[i + 1..] == Lines(s, from + |lines[i]|)
  {
    hide LineEnd;
    assert lines[i..][0] == lines[i] && lines[i..][1..] == lines[i + 1..];
  }

  // ---------------------------------------------------------------- fallback candidates are valid

  /** A chunk is the stretch of the document between its offsets. */
  predicate IsStretch(c: DocChunk) { c.start <= c.end && c.end - c.start == |c.text| }

  /** The bullet's text, not empty and not padded, stands at its place in its chunk. */
  predicate Stands(c: DocChunk, f: Found) {
    && f.section != "" && f.chunk == c.id && f.exact != "" && Strip(f.exact) == f.exact
    && c.start <= f.start && f.start + |f.exact| <= c.start + |c.text|
    && c.text[f.start - c.start..f.start - c.start + |f.exact|] == f.exact
  }

  ghost predicate StandsIn(chunks: seq<DocChunk>, f: Found) { exists c :: c in chunks && Stands(c, f) }

  lemma StripTwice(s: string)
    ensures Strip(Strip(s)) == Strip(s)
  {
    var t := Trim(s, Span(0, |s|));
    StripIsTrim(s, t);
    TrimOfTrim(s, t);
  }

  lemma TrimOfTrim(s: string, t: Span)
    requires InText(s, t) && IsTrim(s, t)
    ensures Slice(s, Trim(s, t)) == Slice(s, t)
  {}

  /** A bullet has a text, and that text occurs in its line. */
  lemma BulletOccurs(line: string)
    requires IsBullet(Strip(line))
    ensures BulletText(line) != "" && Strip(BulletText(line)) == BulletText(line) && IndexOf(line, BulletText(line), 0) >= 0
  {
    hide SkipLeft, SkipRight;
    var t := Trim(line, Span(0, |line|));
    var stripped := Strip(line);
    StripTwice(stripped[2..]);
    var p := Span(t.start + 2, t.end);
    SliceShift(line, t.start, t.end - t.start, 2, t.end - t.start);
    assert Slice(line, p) == stripped[2..];
    StripIsTrim(line, p);
    LastCharStays(line, t);
    var u := Trim(line, p);
    assert Occurs(line, BulletText(line), u.start);
  }

  lemma LastCharStays(line: string, t: Span)
    requires InText(line, t) && IsTrim(line, t) && t.end - t.start > 2
    ensures var u := Trim(line, Span(t.start + 2, t.end)); u.start < u.end
  {
    var u := Trim(line, Span(t.start + 2, t.end));
    assert !IsSpace(line[t.end - 1]);
  }

  lemma FoundStands(line: string, section: string, c: DocChunk, from: nat, f: Found)
    requires from + |line| <= |c.text| && c.text[from..from + |line|] == line && section != ""
    requires f in FoundIn(line, section, c, from)
    ensures Stands(c, f)
  {
    hide Strip, IndexOf;
    BulletOccurs(line);
    var exact := BulletText(line);
    var at := IndexOf(line, exact, 0);
    AtOccurs(line, exact);
    SliceShift(c.text, from, |line|, at, at + |exact|);
  }

  lemma AtOccurs(s: string, pattern: string)
    ensures IndexOf(s, pattern, 0) >= 0 ==> Occurs(s, pattern, IndexOf(s, pattern, 0))
  {}

  lemma SectionsAreNamed(stripped: string, section: string, lower: string -> string)
    requires section != ""
    ensures NextSection(stripped, section, lower) != ""
  {}

  lemma {:induction false} VisitStands(found: seq<Found>, section: string, c: DocChunk, from: nat, lower: string -> string, chunks: seq<DocChunk>)
    requires from <= |c.text| && c in chunks && section != ""
    requires forall f :: f in found ==> StandsIn(chunks, f)
    ensures forall f :: f in VisitFrom(found, section, c, from, lower) ==> StandsIn(chunks, f)
    decreases |c.text| - from
  {
    hide Strip, FoundIn, NextSection, Stands, LineEnd;
    if from < |c.text| {
      var line := c.text[from..LineEnd(c.text, from)];
      SectionsAreNamed(Strip(line), section, lower);
      forall f | f in FoundIn(line, section, c, from) ensures StandsIn(chunks, f) {
        FoundStands(line, section, c, from, f);
      }
      VisitStands(found + FoundIn(line, section, c, from), NextSection(Strip(line), section, lower), c, LineEnd(c.text, from), lower, chunks);
    }
  }

  lemma {:induction false} BulletsStand(found: seq<Found>, rest: seq<DocChunk>, lower: string -> string, chunks: seq<DocChunk>)
    requires forall c :: c in rest ==> c in chunks
    requires forall f :: f in found ==> StandsIn(chunks, f)
    ensures forall f :: f in Bullets(found, rest, lower) ==> StandsIn(chunks, f)
    decreases |rest|
  {
    hide VisitFrom, StandsIn;
    if rest != [] {
      VisitStands(found, "assumption", rest[0], 0, lower, chunks);
      BulletsStand(VisitFrom(found, "assumption", rest[0], 0, lower), rest[1..], lower, chunks);
    }
  }

  lemma {:induction false} LookupFinds(chunks: seq<DocChunk>, c: DocChunk)
    requires c in chunks && forall i, j :: 0 <= i < j < |chunks| ==> chunks[i].id != chunks[j].id
    ensures Lookup(chunks, c.id) == Some(c)
  {
    var n := |chunks| - 1;
    var i :| 0 <= i < |chunks| && chunks[i] == c;
    if i < n {
      assert chunks[..n][i] == c;
      LookupFinds(chunks[..n], c);
    }
  }

  function AsRaw(c: Candidate): Raw { Raw(Some(c.key), Some(c.itemType), Some(c.text), Some(c.chunk), Some(c.start), Some(c.end)) }

  /** One candidate passes every check of the validator but the key's uniqueness. */
  lemma CandidateIsAcceptable(chunks: seq<DocChunk>, c: DocChunk, f: Found, candidate: Candidate)
    requires c in chunks && IsStretch(c) && Stands(c, f)
    requires forall i, j :: 0 <= i < j < |chunks| ==> chunks[i].id != chunks[j].id
    requires candidate == Candidate(candidate.key, f.section, f.exact, f.chunk, f.start, f.start + |f.exact|) && candidate.key != ""
    ensures IsAcceptable(AsRaw(candidate), chunks)
  {
    hide Strip;
    LookupFinds(chunks, c);
    assert Clip(c.text, f.start - c.start, f.start + |f.exact| - c.start) == f.exact;
  }

  lemma KeysAreNamed(key: string, base: string, seen: set<string>)
    requires IsFreeKey(key, base, seen) && base != ""
    ensures key != ""
  {}

  lemma KeysDiffer(candidates: seq<Candidate>, i: nat, j: nat)
    requires i < j < |candidates| && candidates[j].key !in Keys(candidates[..j])
    ensures candidates[i].key != candidates[j].key
  {
    assert candidates[..j][i] == candidates[i];
  }

  lemma OneIsAcceptable(chunks: seq<DocChunk>, candidates: seq<Candidate>, i: nat, f: Found, lower: string -> string)
    requires i < |candidates| && Carries(candidates, i, f, lower) && StandsIn(chunks, f)
    requires forall i, j :: 0 <= i < j < |chunks| ==> chunks[i].id != chunks[j].id
    requires forall c :: c in chunks ==> IsStretch(c)
    ensures IsAcceptable(AsRaw(candidates[i]), chunks)
  {
    hide IsAcceptable, IsFreeKey, Strip, Slug;
    var c :| c in chunks && Stands(c, f);
    KeysAreNamed(candidates[i].key, f.section + "-" + Slug(lower(f.exact)), Keys(candidates[..i]));
    CandidateIsAcceptable(chunks, c, f, candidates[i]);
  }

  /** For stretches of a text with distinct ids, every candidate of the line fallback is
      acceptable to the validator and no two have the same key. */
  lemma FallbackIsValid(chunks: seq<DocChunk>, candidates: seq<Candidate>, lower: string -> string)
    requires forall i, j :: 0 <= i < j < |chunks| ==> chunks[i].id != chunks[j].id
    requires forall c :: c in chunks ==> IsStretch(c)
    requires IsFallback(candidates, Bullets([], chunks, lower), lower)
    ensures forall i :: 0 <= i < |candidates| ==> IsAcceptable(AsRaw(candidates[i]), chunks)
    ensures forall i, j :: 0 <= i < j < |candidates| ==> candidates[i].key != candidates[j].key
  {
    hide IsAcceptable, IsFreeKey, Bullets, Strip, Slug;
    var found := Bullets([], chunks, lower);
    BulletsStand([], chunks, lower, chunks);
    forall i | 0 <= i < |candidates| ensures IsAcceptable(AsRaw(candidates[i]), chunks) {
      OneIsAcceptable(chunks, candidates, i, found[i], lower);
    }
    forall i, j | 0 <= i < j < |candidates| ensures candidates[i].key != candidates[j].key {
      assert Carries(candidates, j, found[j], lower);
      KeysDiffer(candidates, i, j);
    }
  }

  /** Cut from the whole document, each span is the candidate's text. */
  lemma SpansAreAbsolute(document: string, chunks: seq<DocChunk>, candidates: seq<Candidate>, lower: string -> string)
    requires forall c :: c in chunks ==> IsStretch(c) && c.end <= |document| && document[c.start..c.end] == c.text
    requires IsFallback(candidates, Bullets([], chunks, lower), lower)
    ensures forall c :: c in candidates ==> 0 <= c.start < c.end <= |document| && document[c.start..c.end] == c.text
  {
    hide IsFreeKey, Bullets, Strip, Slug;
    var found := Bullets([], chunks, lower);
    BulletsStand([], chunks, lower, chunks);
    forall k | 0 <= k < |candidates|
      ensures 0 <= candidates[k].start < candidates[k].end <= |document| && document[candidates[k].start..candidates[k].end] == candidates[k].text
    {
      var f := found[k];
      assert Carries(candidates, k, f, lower) && StandsIn(chunks, f);
      var c :| c in chunks && Stands(c, f);
      SliceShift(document, c.start, |c.text|, f.start - c.start, f.start - c.start + |f.exact|);
    }
  }

  /** The rows stored for a document's chunks, in the chunker's own terms. */
  function Stored(document: string, ids: seq<nat>): seq<DocChunk>
    requires |ids| == |Chunks.Paragraphs(document)|
  {
    seq(|ids|, i requires 0 <= i < |ids| => StoredChunk(document, ids[i], Chunks.Paragraphs(document)[i]))
  }

  function StoredChunk(document: string, id: nat, p: Span): DocChunk
    requires InText(document, p)
  {
    DocChunk(id, Slice(document, p), p.start, p.end)
  }

  lemma StoredAreStretches(document: string, ids: seq<nat>)
    requires |ids| == |Chunks.Paragraphs(document)|
    ensures forall c :: c in Stored(document, ids) ==> IsStretch(c) && c.end <= |document| && document[c.start..c.end] == c.text
  {
    hide Chunks.Paragraphs;
    var chunks := Stored(document, ids);
    forall i | 0 <= i < |chunks|
      ensures IsStretch(chunks[i]) && chunks[i].end <= |document| && document[chunks[i].start..chunks[i].end] == chunks[i].text
    {
      assert chunks[i] == StoredChunk(document, ids[i], Chunks.Paragraphs(document)[i]);
    }
  }

  function AsPayload(candidates: seq<Candidate>): seq<Raw> {
    seq(|candidates|, i requires 0 <= i < |candidates| => AsRaw(candidates[i]))
  }

  /** End to end: for any document chunked by the chunker and stored under distinct ids, the
      validator accepts the fallback's candidates exactly when there are at most 500 of them,
      keys are unique across all chunks, and every span of the document is its text. */
  lemma FallbackOfDocument(document: string, ids: seq<nat>, candidates: seq<Candidate>, lower: string -> string)
    requires |ids| == |Chunks.Paragraphs(document)| && forall i, j :: 0 <= i < j < |ids| ==> ids[i] != ids[j]
    requires IsFallback(candidates, Bullets([], Stored(document, ids), lower), lower)
    ensures IsValidPayload(AsPayload(candidates), Stored(document, ids)) <==> |candidates| <= MAX_ITEMS
    ensures forall i, j :: 0 <= i < j < |candidates| ==> candidates[i].key != candidates[j].key
    ensures forall c :: c in candidates ==> 0 <= c.start < c.end <= |document| && document[c.start..c.end] == c.text
  {
    hide IsAcceptable, IsFallback, Bullets, Chunks.Paragraphs;
    var chunks := Stored(document, ids);
    StoredAreStretches(document, ids);
    FallbackIsValid(chunks, candidates, lower);
    SpansAreAbsolute(document, chunks, candidates, lower);
  }

  // ---------------------------------------------------------------- lines and their sections

  function Joined(lines: seq<string>): string { if lines == [] then [] else lines[0] + Joined(lines[1..]) }

  /** One line: a break only at its end, one character or a carriage return and a newline. */
  predicate IsLine(s: string) {
    && s != [] && forall i :: 0 <= i < |s| - 1 && IsLineBreak(s[i]) ==> i == |s| - 2 && s[i] == '\r' && s[i + 1] == '\n'
  }

  predicate EndsInBreak(s: string) { s != [] && IsLineBreak(s[|s| - 1]) }

  lemma {:induction false} LineIsLine(s: string, from: nat, i: nat)
    requires from <= i < |s| && forall j :: from <= j < i ==> !IsLineBreak(s[j])
    ensures IsLine(s[from..LineEnd(s, i)])
    ensures LineEnd(s, i) < |s| ==> IsLineBreak(s[LineEnd(s, i) - 1])
    decreases |s| - i
  {
    if !IsLineBreak(s[i]) && i + 1 < |s| { LineIsLine(s, from, i + 1); }
  }

  /** The lines make up the text, and each is a line; all but the last end in a break. */
  lemma {:induction false} LinesAreWhole(s: string, from: nat)
    requires from <= |s|
    ensures Joined(Lines(s, from)) == s[from..]
    ensures forall i :: 0 <= i < |Lines(s, from)| ==> IsLine(Lines(s, from)[i])
    ensures forall i :: 0 <= i < |Lines(s, from)| - 1 ==> EndsInBreak(Lines(s, from)[i])
    decreases |s| - from
  {
    hide IsLineBreak;
    if from < |s| {
      var end := LineEnd(s, from);
      LineIsLine(s, from, from);
      LinesAreWhole(s, end);
      assert Lines(s, from) == [s[from..end]] + Lines(s, end);
      assert s[from..] == s[from..end] + s[end..];
    }
  }

  /** The line is a heading that names this section: "included" before "excluded" before
      "commercial". */
  predicate NamesSection(line: string, section: string, lower: string -> string) {
    && Strip(line) != "" && Strip(line)[0] == '#'
    && var heading := lower(Strip(DropHashes(Strip(line))));
    && Contains(heading, section) && section in {"included", "excluded", "commercial"}
    && (section == "excluded" ==> !Contains(heading, "included"))
    && (section == "commercial" ==> !Contains(heading, "included") && !Contains(heading, "excluded"))
  }

  ghost predicate NamesNone(line: string, lower: string -> string) { forall x :: !NamesSection(line, x, lower) }

  /** The section in force at a line: that of the last heading before it that names one. */
  ghost predicate IsSectionAt(lines: seq<string>, i: nat, section: string, lower: string -> string)
    requires i <= |lines|
  {
    if forall j :: 0 <= j < i ==> NamesNone(lines[j], lower) then section == "assumption"
    else exists j: nat :: j < i && NamesSection(lines[j], section, lower) && forall k :: j < k < i ==> NamesNone(lines[k], lower)
  }

  /** The line is a bullet with this text. */
  predicate IsBulletOf(line: string, text: string) {
    var s := Strip(line);
    |s| > 2 && s[0] in {'-', '*'} && s[1] == ' ' && text == Strip(s[2..])
  }

  /** The bullet stands on line i of the chunk and has the section in force there. */
  ghost predicate IsFromLine(lines: seq<string>, i: nat, c: DocChunk, f: Found, lower: string -> string)
    requires i < |lines|
  {
    IsBulletOf(lines[i], f.exact) && f.chunk == c.id && IsSectionAt(lines, i, f.section, lower)
  }

  lemma SectionMoves(lines: seq<string>, i: nat, section: string, lower: string -> string)
    requires i < |lines| && IsSectionAt(lines, i, section, lower)
    ensures IsSectionAt(lines, i + 1, NextSection(Strip(lines[i]), section, lower), lower)
  {
    hide Strip, Contains, DropHashes;
    var next := NextSection(Strip(lines[i]), section, lower);
    NextNames(lines[i], section, lower);
    if NamesSection(lines[i], next, lower) {
      assert !NamesNone(lines[i], lower);
    } else if !(forall j :: 0 <= j < i ==> NamesNone(lines[j], lower)) {
      var j: nat :| j < i && NamesSection(lines[j], section, lower) && forall k :: j < k < i ==> NamesNone(lines[k], lower);
      assert !NamesNone(lines[j], lower);
      assert forall k :: j < k < i + 1 ==> NamesNone(lines[k], lower);
    }
  }

  lemma NextNames(line: string, section: string, lower: string -> string)
    ensures var next := NextSection(Strip(line), section, lower);
            NamesSection(line, next, lower) || (NamesNone(line, lower) && next == section)
  {
    hide Strip, Contains, DropHashes;
  }

  lemma BulletMeans(line: string)
    ensures IsBullet(Strip(line)) ==> IsBulletOf(line, BulletText(line))
    ensures forall x :: IsBulletOf(line, x) ==> IsBullet(Strip(line)) && x == BulletText(line)
  {
    hide Strip;
    var s := Strip(line);
    assert StartsWith(s, "- ") <==> |s| >= 2 && s[0] == '-' && s[1] == ' ';
    assert StartsWith(s, "* ") <==> |s| >= 2 && s[0] == '*' && s[1] == ' ';
  }

  lemma {:induction false} VisitSections(found: seq<Found>, section: string, c: DocChunk, from: nat, lower: string -> string, lines: seq<string>, n: nat)
    requires from <= |c.text| && n <= |lines| && lines[n..] == Lines(c.text, from) && IsSectionAt(lines, n, section, lower)
    ensures found <= VisitFrom(found, section, c, from, lower)
    ensures forall f :: f in VisitFrom(found, section, c, from, lower) && f !in found ==> exists i :: 0 <= i < |lines| && IsFromLine(lines, i, c, f, lower)
    ensures forall i :: n <= i < |lines| && IsBullet(Strip(lines[i])) ==>
              exists f :: f in VisitFrom(found, section, c, from, lower) && IsFromLine(lines, i, c, f, lower)
    decreases |c.text| - from
  {
    hide Strip, FoundIn, NextSection, LineEnd, IsSectionAt, IsBulletOf, IsBullet;
    if from < |c.text| {
      LineHere(c.text, from, lines, n);
      var line, end := lines[n], LineEnd(c.text, from);
      SectionMoves(lines, n, section, lower);
      LineFinds(lines, n, section, c, from, lower);
      var grown, next := found + FoundIn(line, section, c, from), NextSection(Strip(line), section, lower);
      VisitSections(grown, next, c, end, lower, lines, n + 1);
      var all := VisitFrom(found, section, c, from, lower);
      assert all == VisitFrom(grown, next, c, end, lower);
      assert forall f :: f in grown ==> f in all;
      assert all[..|found|] == grown[..|found|] == found;
      if IsBullet(Strip(line)) {
        var f := FoundIn(line, section, c, from)[0];
        assert f in FoundIn(line, section, c, from) && f in all && IsFromLine(lines, n, c, f, lower);
      }
    }
  }

  lemma LineFinds(lines: seq<string>, n: nat, section: string, c: DocChunk, from: nat, lower: string -> string)
    requires n < |lines| && IsSectionAt(lines, n, section, lower)
    ensures forall f :: f in FoundIn(lines[n], section, c, from) ==> IsFromLine(lines, n, c, f, lower)
    ensures IsBullet(Strip(lines[n])) ==> FoundIn(lines[n], section, c, from) != []
  {
    hide Strip, IsSectionAt, IsBulletOf, IsBullet;
    BulletMeans(lines[n]);
    if IsBullet(Strip(lines[n])) { BulletOccurs(lines[n]); }
  }

  /** In every chunk exactly the bullet lines give bullets, each under the section of the last
      heading before it that names one. */
  lemma BulletHasLine(c: DocChunk, f: Found, lower: string -> string) returns (i: nat)
    requires f in VisitFrom([], "assumption", c, 0, lower)
    ensures i < |Lines(c.text, 0)| && IsFromLine(Lines(c.text, 0), i, c, f, lower)
  {
    hide Strip, VisitFrom, Lines, IsBullet, NamesNone, IsFromLine;
    VisitSections([], "assumption", c, 0, lower, Lines(c.text, 0), 0);
    i :| 0 <= i < |Lines(c.text, 0)| && IsFromLine(Lines(c.text, 0), i, c, f, lower);
  }

  lemma LineHasBullet(c: DocChunk, i: nat, text: string, lower: string -> string) returns (f: Found)
    requires i < |Lines(c.text, 0)| && IsBulletOf(Lines(c.text, 0)[i], text)
    ensures f in VisitFrom([], "assumption", c, 0, lower) && f.exact == text && IsFromLine(Lines(c.text, 0), i, c, f, lower)
  {
    hide Strip, VisitFrom, Lines, IsBullet, NamesNone;
    VisitSections([], "assumption", c, 0, lower, Lines(c.text, 0), 0);
    BulletMeans(Lines(c.text, 0)[i]);
    f :| f in VisitFrom([], "assumption", c, 0, lower) && IsFromLine(Lines(c.text, 0), i, c, f, lower);
  }

  lemma {:induction false} VisitAppends(found: seq<Found>, section: string, c: DocChunk, from: nat, lower: string -> string)
    requires from <= |c.text|
    ensures VisitFrom(found, section, c, from, lower) == found + VisitFrom([], section, c, from, lower)
    decreases |c.text| - from
  {
    hide FoundIn, NextSection, LineEnd;
    if from < |c.text| {
      var line, end := c.text[from..LineEnd(c.text, from)], LineEnd(c.text, from);
      var here, next := FoundIn(line, section, c, from), NextSection(Strip(line), section, lower);
      VisitAppends(found + here, next, c, end, lower);
      VisitAppends([] + here, next, c, end, lower);
      assert [] + here == here;
      assert found + here + VisitFrom([], next, c, end, lower) == found + (here + VisitFrom([], next, c, end, lower));
    }
  }

  ghost predicate IsInChunk(chunks: seq<DocChunk>, k: nat, f: Found, lower: string -> string) {
    k < |chunks| && f in VisitFrom([], "assumption", chunks[k], 0, lower)
  }

  lemma {:induction false} BulletsOfChunks(found: seq<Found>, chunks: seq<DocChunk>, lower: string -> string, f: Found)
    ensures f in Bullets(found, chunks, lower) <==> f in found || exists k: nat :: IsInChunk(chunks, k, f, lower)
    decreases |chunks|
  {
    hide VisitFrom;
    if chunks != [] {
      var rest, grown := chunks[1..], VisitFrom(found, "assumption", chunks[0], 0, lower);
      VisitAppends(found, "assumption", chunks[0], 0, lower);
      BulletsOfChunks(grown, rest, lower, f);
      assert f in grown <==> f in found || IsInChunk(chunks, 0, f, lower);
      if k: nat :| IsInChunk(rest, k, f, lower) { assert IsInChunk(chunks, k + 1, f, lower); }
      if k: nat :| IsInChunk(chunks, k, f, lower) && k > 0 { assert IsInChunk(rest, k - 1, f, lower); }
    }
  }

  /** The candidate says what bullet line i of the chunk says, under the section in force there. */
  ghost predicate IsCandidateOf(candidate: Candidate, c: DocChunk, i: nat, lower: string -> string) {
    && i < |Lines(c.text, 0)| && IsBulletOf(Lines(c.text, 0)[i], candidate.text)
    && candidate.chunk == c.id && IsSectionAt(Lines(c.text, 0), i, candidate.itemType, lower)
  }

  ghost predicate IsSomeBullet(candidate: Candidate, chunks: seq<DocChunk>, lower: string -> string) {
    exists k: nat, i: nat :: k < |chunks| && IsCandidateOf(candidate, chunks[k], i, lower)
  }

  /** The fallback's candidates are exactly the bullet lines of the chunks, each of the type that the
      last naming heading before it gives. */
  lemma CandidatesAreBullets(chunks: seq<DocChunk>, candidates: seq<Candidate>, lower: string -> string)
    requires IsFallback(candidates, Bullets([], chunks, lower), lower)
    ensures forall n :: 0 <= n < |candidates| ==> IsSomeBullet(candidates[n], chunks, lower)
    ensures forall k: nat, i: nat, text :: k < |chunks| && i < |Lines(chunks[k].text, 0)| && IsBulletOf(Lines(chunks[k].text, 0)[i], text) ==>
              exists n :: 0 <= n < |candidates| && candidates[n].text == text && IsCandidateOf(candidates[n], chunks[k], i, lower)
  {
    hide Bullets, VisitFrom, Lines, IsBulletOf, IsSectionAt, IsFreeKey;
    var found := Bullets([], chunks, lower);
    forall n | 0 <= n < |candidates| ensures IsSomeBullet(candidates[n], chunks, lower) {
      assert Carries(candidates, n, found[n], lower);
      BulletsOfChunks([], chunks, lower, found[n]);
      var k: nat :| IsInChunk(chunks, k, found[n], lower);
      var i := BulletHasLine(chunks[k], found[n], lower);
      assert IsCandidateOf(candidates[n], chunks[k], i, lower);
    }
    forall k: nat, i: nat, text | k < |chunks| && i < |Lines(chunks[k].text, 0)| && IsBulletOf(Lines(chunks[k].text, 0)[i], text)
      ensures exists n :: 0 <= n < |candidates| && candidates[n].text == text && IsCandidateOf(candidates[n], chunks[k], i, lower)
    {
      var f := LineHasBullet(chunks[k], i, text, lower);
      BulletsOfChunks([], chunks, lower, f);
      assert IsInChunk(chunks, k, f, lower);
      var n :| 0 <= n < |found| && found[n] == f;
      assert Carries(candidates, n, found[n], lower);
      assert IsCandidateOf(candidates[n], chunks[k], i, lower);
    }
  }

  // ---------------------------------------------------------------- what the validator accepts

  /** The item has a key, a type and a text, and quotes one paragraph of the document: cut from the
      document at its offsets, and stripped, that paragraph reads the item's text. */
  predicate Quotes(r: Raw, document: string, ids: seq<nat>, k: nat)
    requires k < |ids| == |Chunks.Paragraphs(document)|
  {
    var p := Chunks.Paragraphs(document)[k];
    && r.key.Some? && r.key.value != "" && r.itemType.Some? && r.itemType.value != "" && r.text.Some? && Strip(r.text.value) != ""
    && r.chunk == Some(ids[k]) && r.start.Some? && r.end.Some?
    && p.start <= r.start.value < r.end.value <= p.end <= |document|
    && Strip(document[r.start.value..r.end.value]) == Strip(r.text.value)
  }

  /** Exactly quotations of the document's own paragraphs are acceptable. */
  lemma AcceptableIsQuotation(document: string, ids: seq<nat>, r: Raw)
    requires |ids| == |Chunks.Paragraphs(document)| && forall i, j :: 0 <= i < j < |ids| ==> ids[i] != ids[j]
    ensures IsAcceptable(r, Stored(document, ids)) <==> exists k :: 0 <= k < |ids| && Quotes(r, document, ids, k)
  {
    hide Chunks.Paragraphs, Strip, IsGrounded, Quotes;
    var chunks := Stored(document, ids);
    if IsComplete(r) {
      forall k | 0 <= k < |ids| ensures Quotes(r, document, ids, k) ==> IsAcceptable(r, chunks) {
        StoredIsAt(document, ids, k);
        LookupFinds(chunks, chunks[k]);
        QuotesIsGrounded(r, document, ids, k);
      }
      if IsAcceptable(r, chunks) {
        LookupIs(chunks, r.chunk.value);
        var c := Lookup(chunks, r.chunk.value).value;
        var k :| 0 <= k < |chunks| && chunks[k] == c;
        StoredIsAt(document, ids, k);
        QuotesIsGrounded(r, document, ids, k);
      }
    } else {
      forall k | 0 <= k < |ids| { QuoteIsComplete(r, document, ids, k); }
    }
  }

  lemma QuoteIsComplete(r: Raw, document: string, ids: seq<nat>, k: nat)
    requires k < |ids| == |Chunks.Paragraphs(document)|
    ensures Quotes(r, document, ids, k) ==> IsComplete(r)
  {}

  lemma StoredIsAt(document: string, ids: seq<nat>, k: nat)
    requires k < |ids| == |Chunks.Paragraphs(document)|
    ensures Stored(document, ids)[k] == StoredChunk(document, ids[k], Chunks.Paragraphs(document)[k]) && Stored(document, ids)[k] in Stored(document, ids)
    ensures forall i :: 0 <= i < |ids| ==> Stored(document, ids)[i].id == ids[i]
  {
    hide Chunks.Paragraphs;
  }

  lemma {:induction false} LookupIs(chunks: seq<DocChunk>, id: nat)
    ensures Lookup(chunks, id).Some? ==> Lookup(chunks, id).value in chunks && Lookup(chunks, id).value.id == id
  {
    if chunks != [] && chunks[|chunks| - 1].id != id { LookupIs(chunks[..|chunks| - 1], id); }
  }

  lemma QuotesIsGrounded(r: Raw, document: string, ids: seq<nat>, k: nat)
    requires k < |ids| == |Chunks.Paragraphs(document)| && IsComplete(r)
    ensures var c := StoredChunk(document, ids[k], Chunks.Paragraphs(document)[k]);
            Quotes(r, document, ids, k) <==>
              && r.key.value != "" && r.itemType.value != "" && Strip(r.text.value) != "" && r.chunk.value == ids[k]
              && IsGrounded(c, r.text.value, r.start.value, r.end.value)
  {
    hide Chunks.Paragraphs, Strip;
    var p := Chunks.Paragraphs(document)[k];
    assert InText(document, p);
    var start, end := r.start.value, r.end.value;
    if p.start <= start < end <= p.end {
      SliceShift(document, p.start, p.end - p.start, start - p.start, end - p.start);
      assert Clip(Slice(document, p), start - p.start, end - p.start) == document[start..end];
    }
  }

  // ---------------------------------------------------------------- extraction

  datatype Extraction = Pending | Ready(candidates: seq<Candidate>, fallback: bool)

  /** A provider's payload is used if it validates; otherwise the line fallback stands in. */
  method ExtractCandidates(payload: Option<seq<Raw>>, chunks: seq<DocChunk>, lower: string -> string) returns (r: Extraction)
    requires forall i, j :: 0 <= i < j < |chunks| ==> chunks[i].id != chunks[j].id
    requires forall c :: c in chunks ==> IsStretch(c)
    ensures payload.None? ==> r.Pending?
    ensures r.Pending? && payload.Some? ==> Bullets([], chunks, lower) == []
    ensures r.Ready? && r.fallback ==> IsFallback(r.candidates, Bullets([], chunks, lower), lower) && r.candidates != []
    ensures r.Ready? && !r.fallback ==> payload.Some? && |payload.value| == |r.candidates| <= MAX_ITEMS
    ensures r.Ready? ==> forall i :: 0 <= i < |r.candidates| ==> IsAcceptable(AsRaw(r.candidates[i]), chunks)
    ensures r.Ready? ==> forall i, j :: 0 <= i < j < |r.candidates| ==> r.candidates[i].key != r.candidates[j].key
  {
    hide IsAcceptable, IsFreeKey, Bullets, Strip, Slug;
    if payload.None? { return Pending; }
    var validated := ValidateOutput(payload.value, chunks);
    if validated.Some? {
      assert forall i :: 0 <= i < |validated.value| ==> AsRaw(validated.value[i]) == payload.value[i];
      return Ready(validated.value, false);
    }
    var fallback := LineCandidates(chunks, lower);
    if fallback == [] { return Pending; }
    FallbackIsValid(chunks, fallback, lower);
    return Ready(fallback, true);
  }
}
