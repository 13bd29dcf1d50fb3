/** Splitting a document into paragraph chunks and finding each chunk's place again. */
module Chunks {
  import opened Common
  import opened Text

  const MAX_CHARS: nat := 250_000

  // ---------------------------------------------------------------- paragraph breaks

  function LastNewline(s: string, a: nat, b: nat): (j: Option<nat>)
    requires a <= b <= |s|
    ensures j.Some? ==> a <= j.value < b && s[j.value] == '\n' && forall i :: j.value < i < b ==> s[i] != '\n'
    ensures j.None? ==> forall i :: a <= i < b ==> s[i] != '\n'
    decreases b - a
  {
    if a == b then None else if s[b - 1] == '\n' then Some(b - 1) else LastNewline(s, a, b - 1)
  }

  /** Where the pattern `\n\s*\n+` matches from position i, if it does: the run of whitespace is
      given back up to its last newline. */
  function BreakEnd(s: string, i: nat): (e: Option<nat>)
    requires i < |s|
    ensures e.Some? ==> i + 1 < e.value <= |s| && AllSpace(s, i, e.value)
  {
    if s[i] != '\n' then None
    else
      var j := LastNewline(s, i + 1, SkipLeft(s, i + 1, |s|));
      if j.None? then None else Some(j.value + 1)
  }

  /** The first match at or after a position. */
  function NextBreak(s: string, from: nat): (m: Option<Span>)
    requires from <= |s|
    ensures m.Some? ==> from <= m.value.start < m.value.end <= |s| && AllSpace(s, m.value.start, m.value.end)
    decreases |s| - from
  {
    if from == |s| then None
    else
      var e := BreakEnd(s, from);
      if e.Some? then Some(Span(from, e.value)) else NextBreak(s, from + 1)
  }

  /** The stretches between matches: `re.split`. */
  function Parts(s: string, from: nat): (parts: seq<Span>)
    requires from <= |s|
    ensures forall p :: p in parts ==> InText(s, p)
    decreases |s| - from
  {
    var m := NextBreak(s, from);
    if m.None? then [Span(from, |s|)] else [Span(from, m.value.start)] + Parts(s, m.value.end)
  }

  function Cores(s: string, parts: seq<Span>): (cores: seq<Span>)
    requires forall p :: p in parts ==> InText(s, p)
    ensures forall p :: p in cores ==> InText(s, p)
  {
    if parts == [] then []
    else
      var t := Trim(s, parts[0]);
      (if t.start < t.end then [t] else []) + Cores(s, parts[1..])
  }

  /** The paragraphs of a text, each at its own position. */
  function Paragraphs(s: string): (cores: seq<Span>)
    ensures forall p :: p in cores ==> InText(s, p)
  {
    Cores(s, Parts(s, 0))
  }

  // ---------------------------------------------------------------- paragraphs tile the text

  /** From a position on, the paragraphs follow each other, none is empty, each begins and ends
      with something, and all the rest is whitespace. */
  ghost predicate Tiles(s: string, from: nat, cores: seq<Span>)
    requires from <= |s|
    decreases |cores|
  {
    if cores == [] then AllSpace(s, from, |s|)
    else
      var c := cores[0];
      && from <= c.start < c.end <= |s| && AllSpace(s, from, c.start) && IsTrim(s, c)
      && Tiles(s, c.end, cores[1..])
  }

  lemma {:induction false} PartsTile(s: string, from: nat, at: nat)
    requires from <= at <= |s| && AllSpace(s, from, at)
    ensures Tiles(s, from, Cores(s, Parts(s, at)))
    decreases |s| - at
  {
    hide Cores, Parts, Tiles;
    var m := NextBreak(s, at);
    var end := if m.None? then |s| else m.value.start;
    var t := Trim(s, Span(at, end));
    var after := if t.start < t.end then t.end else from;
    CoresStep(s, at);
    if m.None? {
      TilesEnd(s, after);
    } else {
      PartsTile(s, after, m.value.end);
    }
    var rest := if m.None? then [] else Cores(s, Parts(s, m.value.end));
    if t.start < t.end { TilesCons(s, from, t, rest); } else { assert [] + rest == rest; }
  }

  lemma TilesEnd(s: string, from: nat)
    requires from <= |s| && AllSpace(s, from, |s|)
    ensures Tiles(s, from, [])
  {}

  lemma TilesCons(s: string, from: nat, c: Span, rest: seq<Span>)
    requires from <= c.start < c.end <= |s| && AllSpace(s, from, c.start) && IsTrim(s, c) && Tiles(s, c.end, rest)
    ensures Tiles(s, from, [c] + rest)
  {
    assert ([c] + rest)[1..] == rest;
  }

  lemma {:induction false} TilesFrom(s: string, from: nat, cores: seq<Span>, k: nat)
    requires from <= |s| && Tiles(s, from, cores) && k < |cores|
    ensures cores[k].start < cores[k].end <= |s| && from <= cores[k].start && IsTrim(s, cores[k])
    ensures Tiles(s, cores[k].end, cores[k + 1..])
    ensures forall i :: from <= i < cores[k].start && !IsSpace(s[i]) ==> exists j :: 0 <= j < k && cores[j].start <= i < cores[j].end
    ensures k > 0 ==> cores[k - 1].end <= cores[k].start && AllSpace(s, cores[k - 1].end, cores[k].start)
    decreases |cores|
  {
    if k > 0 {
      var rest := cores[1..];
      TilesFrom(s, cores[0].end, rest, k - 1);
      assert rest[k..] == cores[k + 1..];
      forall i | from <= i < cores[k].start && !IsSpace(s[i]) ensures exists j :: 0 <= j < k && cores[j].start <= i < cores[j].end {
        if i >= cores[0].end {
          var j :| 0 <= j < k - 1 && rest[j].start <= i < rest[j].end;
          assert cores[j + 1] == rest[j];
        } else {
          assert cores[0].start <= i < cores[0].end;
        }
      }
    }
  }

  /** The paragraphs are ordered and disjoint, each begins and ends with something, and together
      they hold every character that is not whitespace. */
  lemma ParagraphsCover(s: string)
    ensures var cores := Paragraphs(s);
            && (forall k :: 0 <= k < |cores| ==> cores[k].start < cores[k].end <= |s| && IsTrim(s, cores[k]))
            && (forall k :: 0 < k < |cores| ==> cores[k - 1].end <= cores[k].start)
            && (forall i :: 0 <= i < |s| && !IsSpace(s[i]) ==> exists k :: 0 <= k < |cores| && cores[k].start <= i < cores[k].end)
  {
    hide Tiles, Cores, Parts, IsTrim, IsSpace;
    var cores := Cores(s, Parts(s, 0));
    PartsTile(s, 0, 0);
    forall k | 0 <= k < |cores| ensures cores[k].start < cores[k].end <= |s| && IsTrim(s, cores[k]) && (k > 0 ==> cores[k - 1].end <= cores[k].start) {
      TilesFrom(s, 0, cores, k);
    }
    forall i | 0 <= i < |s| && !IsSpace(s[i]) ensures exists k :: 0 <= k < |cores| && cores[k].start <= i < cores[k].end {
      CoverOne(s, 0, cores, i);
    }
  }

  lemma {:induction false} CoverOne(s: string, from: nat, cores: seq<Span>, i: nat)
    requires from <= i < |s| && Tiles(s, from, cores) && !IsSpace(s[i])
    ensures exists k :: 0 <= k < |cores| && cores[k].start <= i < cores[k].end
    decreases |cores|
  {
    assert cores != [];
    if i < cores[0].end {
      assert cores[0].start <= i < cores[0].end;
    } else {
      CoverOne(s, cores[0].end, cores[1..], i);
      var k :| 0 <= k < |cores[1..]| && cores[1..][k].start <= i < cores[1..][k].end;
      assert cores[k + 1] == cores[1..][k];
    }
  }

  // ---------------------------------------------------------------- the chunker

  datatype Chunk = Chunk(index: nat, text: string, start: nat, end: nat, page: Option<nat>)
  datatype Result = Extracted(chunks: seq<Chunk>) | NoText | TooLong

  function PageOf(index: nat, pageCount: Option<nat>): Option<nat> {
    if pageCount.None? || pageCount.value == 0 then None
    else Some(if index + 1 <= pageCount.value then index + 1 else pageCount.value)
  }

  /** The texts of these stretches, one for one. */
  predicate AreSlices(s: string, texts: seq<string>, cores: seq<Span>) {
    |texts| == |cores| && forall k :: 0 <= k < |cores| ==> InText(s, cores[k]) && texts[k] == Slice(s, cores[k])
  }

  lemma OneMoreSlice(s: string, texts: seq<string>, cores: seq<Span>, t: Span)
    requires AreSlices(s, texts, cores) && InText(s, t)
    ensures AreSlices(s, texts + [Slice(s, t)], cores + [t])
  {}

  /** `[part.strip() for part in re.split(...) if part.strip()]` */
  method SplitParagraphs(s: string) returns (paragraphs: seq<string>)
    ensures |paragraphs| == |Paragraphs(s)|
    ensures forall k :: 0 <= k < |paragraphs| ==> paragraphs[k] == Slice(s, Paragraphs(s)[k])
  {
    hide Cores, Parts, Trim, Strip, NextBreak, IsTrim, AllSpace, AreSlices;
    paragraphs := [];
    var from: nat, done := 0, false;
    ghost var cores: seq<Span> := [];
    NoSlices(s);
    while !done
      invariant from <= |s| && AreSlices(s, paragraphs, cores)
      invariant Paragraphs(s) == if done then cores else cores + Cores(s, Parts(s, from))
      decreases !done, |s| - from
    {
      var m := NextBreak(s, from);
      var part := Span(from, if m.Some? then m.value.start else |s|);
      ghost var t := Trim(s, part);
      ghost var here := if t.start < t.end then [t] else [];
      CoresStep(s, from);
      StripIsTrim(s, part);
      OneMoreSlice(s, paragraphs, cores, t);
      JoinSteps(cores, here, if m.Some? then Cores(s, Parts(s, m.value.end)) else []);
      var stripped := Strip(s[part.start..part.end]);
      if stripped != "" {
        paragraphs := paragraphs + [stripped];
        cores := cores + here;
      }
      if m.Some? { from := m.value.end; } else { done := true; }
    }
    SlicesAre(s, paragraphs, cores);
  }

  lemma NoSlices(s: string)
    ensures AreSlices(s, [], [])
  {}

  lemma SlicesAre(s: string, texts: seq<string>, cores: seq<Span>)
    requires AreSlices(s, texts, cores)
    ensures |texts| == |cores| && forall k :: 0 <= k < |cores| ==> InText(s, cores[k]) && texts[k] == Slice(s, cores[k])
  {}

  lemma JoinSteps(a: seq<Span>, b: seq<Span>, c: seq<Span>)
    ensures a + (b + c) == a + b + c && a + [] == a && (b == [] ==> b + c == c) && (c == [] ==> a + b + c == a + b)
  {}

  lemma CoresStep(s: string, from: nat)
    requires from <= |s|
    ensures var m := NextBreak(s, from);
            var t := Trim(s, Span(from, if m.Some? then m.value.start else |s|));
            Cores(s, Parts(s, from)) == (if t.start < t.end then [t] else []) + (if m.Some? then Cores(s, Parts(s, m.value.end)) else [])
  {
    var m := NextBreak(s, from);
    if m.Some? {
      assert Parts(s, from)[1..] == Parts(s, m.value.end);
    } else {
      assert Parts(s, from)[1..] == [];
    }
  }

  /** Chunks hold the paragraphs in order, each at exactly its own position: the search never
      misses, and never stops at an earlier copy. */
  method ChunkText(s: string, pageCount: Option<nat>) returns (r: Result)
    ensures r.NoText? <==> Strip(s) == ""
    ensures r.TooLong? <==> Strip(s) != "" && |s| > MAX_CHARS
    ensures r.Extracted? ==> |r.chunks| == |Paragraphs(s)| > 0
    ensures r.Extracted? ==> forall k :: 0 <= k < |r.chunks| ==>
              var p := Paragraphs(s)[k];
              r.chunks[k] == Chunk(k, Slice(s, p), p.start, p.end, PageOf(k, pageCount))
  {
    hide Tiles, Cores, Parts, PageOf, Strip, Occurs, Slice, IsSpace;
    if Strip(s) == "" { return NoText; }
    if |s| > MAX_CHARS { return TooLong; }
    var paragraphs := SplitParagraphs(s);
    ghost var cores := Paragraphs(s);
    PartsTile(s, 0, 0);
    HasParagraph(s);
    var chunks, cursor: nat, index: nat := [], 0, 0;
    assert cores[0..] == cores;
    while index < |paragraphs|
      invariant index <= |paragraphs| && |chunks| == index && cursor <= |s|
      invariant Tiles(s, cursor, cores[index..])
      invariant forall k :: 0 <= k < index ==> chunks[k] == Chunk(k, Slice(s, cores[k]), cores[k].start, cores[k].end, PageOf(k, pageCount))
    {
      var paragraph := paragraphs[index];
      var start := Find(s, paragraph, cursor);
      OwnPlace(s, cursor, cores, index, start);
      if start < 0 { start := cursor; }
      var end := start + |paragraph|;
      chunks := chunks + [Chunk(index, paragraph, start, end, PageOf(index, pageCount))];
      cursor := end;
      index := index + 1;
    }
    return Extracted(chunks);
  }

  /** What the search returns for the next paragraph. */
  lemma OwnPlace(s: string, cursor: nat, cores: seq<Span>, k: nat, at: int)
    requires cursor <= |s| && k < |cores| && Tiles(s, cursor, cores[k..]) && InText(s, cores[k])
    requires var pattern := Slice(s, cores[k]);
             && (at >= 0 ==> cursor <= at && Occurs(s, pattern, at) && forall i :: cursor <= i < at ==> !Occurs(s, pattern, i))
             && (at < 0 ==> forall i :: cursor <= i ==> !Occurs(s, pattern, i))
    ensures at == cores[k].start && at + |Slice(s, cores[k])| == cores[k].end <= |s|
    ensures Tiles(s, cores[k].end, cores[k + 1..])
  {
    var c := cores[k];
    assert cores[k..][0] == c && cores[k..][1..] == cores[k + 1..];
    assert Occurs(s, Slice(s, c), c.start);
    if at < 0 { assert false; }
    FirstAfterSpace(s, Slice(s, c), cursor, c.start, at);
  }

  lemma HasParagraph(s: string)
    requires Strip(s) != ""
    ensures |Paragraphs(s)| > 0
  {
    var t := Trim(s, Span(0, |s|));
    assert !IsSpace(s[t.start]);
    ParagraphsCover(s);
  }

  // ---------------------------------------------------------------- where the text is cut

  /** Two newlines with nothing but whitespace between them: a blank line. */
  ghost predicate HasBlank(s: string, a: nat, b: nat)
    requires b <= |s|
  {
    exists i, j :: a <= i < j < b && s[i] == '\n' && s[j] == '\n' && AllSpace(s, i, j)
  }

  /** The pattern matches at a newline exactly if a blank line begins there, and up to a newline. */
  lemma BreakIff(s: string, i: nat)
    requires i < |s|
    ensures BreakEnd(s, i).Some? <==> s[i] == '\n' && exists j :: i < j < |s| && s[j] == '\n' && AllSpace(s, i, j)
    ensures BreakEnd(s, i).Some? ==> s[BreakEnd(s, i).value - 1] == '\n'
  {
    hide IsSpace;
    if s[i] == '\n' {
      var run := SkipLeft(s, i + 1, |s|);
      forall j | i < j < |s| && s[j] == '\n' && AllSpace(s, i, j) ensures j < run {
        NewlineIsSpace();
        if run <= j { assert false; }
      }
    }
  }

  lemma NewlineIsSpace()
    ensures IsSpace('\n')
  {}

  lemma {:induction false} FirstBreak(s: string, from: nat)
    requires from <= |s|
    ensures var m := NextBreak(s, from); forall i :: from <= i < (if m.Some? then m.value.start else |s|) ==> BreakEnd(s, i).None?
    ensures var m := NextBreak(s, from); m.Some? ==> BreakEnd(s, m.value.start) == Some(m.value.end)
    decreases |s| - from
  {
    hide BreakEnd;
    if from < |s| && BreakEnd(s, from).None? { FirstBreak(s, from + 1); }
  }

  /** A stretch before the next break has no blank line. */
  lemma PartHasNoBlank(s: string, from: nat, a: nat, b: nat)
    requires from <= |s|
    requires var m := NextBreak(s, from); from <= a <= b <= (if m.Some? then m.value.start else |s|) <= |s|
    ensures !HasBlank(s, a, b)
  {
    hide BreakEnd, NextBreak, AllSpace;
    FirstBreak(s, from);
    if i, j :| a <= i < j < b && s[i] == '\n' && s[j] == '\n' && AllSpace(s, i, j) {
      BreakIff(s, i);
      assert false;
    }
  }

  /** The break itself is a blank line. */
  lemma BreakIsBlank(s: string, from: nat, a: nat, b: nat)
    requires from <= |s| && NextBreak(s, from).Some? && a <= NextBreak(s, from).value.start && NextBreak(s, from).value.end <= b <= |s|
    ensures HasBlank(s, a, b)
  {
    hide BreakEnd;
    var m := NextBreak(s, from).value;
    FirstBreak(s, from);
    BreakIff(s, m.start);
    assert s[m.start] == '\n' && s[m.end - 1] == '\n' && AllSpace(s, m.start, m.end - 1);
  }

  /** No stretch holds a blank line, and there is one between any two. */
  ghost predicate Splits(s: string, from: nat, cores: seq<Span>) {
    && (forall k :: 0 <= k < |cores| ==> from <= cores[k].start <= cores[k].end <= |s| && !HasBlank(s, cores[k].start, cores[k].end))
    && (forall k :: 0 < k < |cores| ==> HasBlank(s, cores[k - 1].end, cores[k].start))
  }

  lemma {:induction false} PartsSplit(s: string, from: nat)
    requires from <= |s|
    ensures Splits(s, from, Cores(s, Parts(s, from)))
    decreases |s| - from
  {
    hide Cores, Parts, HasBlank, NextBreak, Trim;
    CoresStep(s, from);
    var m := NextBreak(s, from);
    var t := Trim(s, Span(from, if m.Some? then m.value.start else |s|));
    PartHasNoBlank(s, from, t.start, t.end);
    if m.Some? {
      var rest := Cores(s, Parts(s, m.value.end));
      PartsSplit(s, m.value.end);
      if t.start < t.end && rest != [] {
        BreakIsBlank(s, from, t.end, rest[0].start);
        assert Splits(s, from, [t] + rest);
      }
    }
  }

  /** The text is cut exactly at its blank lines: a paragraph holds none, and between two
      paragraphs there always is one. */
  lemma CutAtBlankLines(s: string)
    ensures var cores := Paragraphs(s);
            && (forall k :: 0 <= k < |cores| ==> InText(s, cores[k]) && !HasBlank(s, cores[k].start, cores[k].end))
            && (forall k :: 0 < k < |cores| ==> InText(s, Span(cores[k - 1].end, cores[k].start)) && HasBlank(s, cores[k - 1].end, cores[k].start))
  {
    hide HasBlank, Cores, Parts, IsTrim;
    PartsSplit(s, 0);
    ParagraphsCover(s);
  }

  /** Pages are counted from one, one a paragraph, and the last page takes the rest; without pages
      there is no number. */
  lemma PagesCountUp(index: nat, pageCount: Option<nat>)
    ensures PageOf(index, pageCount).Some? <==> pageCount.Some? && pageCount.value > 0
    ensures pageCount.Some? && pageCount.value > 0 ==>
              && PageOf(0, pageCount) == Some(1) && 1 <= PageOf(index, pageCount).value <= pageCount.value
              && PageOf(index + 1, pageCount).value == PageOf(index, pageCount).value + (if PageOf(index, pageCount).value < pageCount.value then 1 else 0)
  {}
}
