/** Keeping one marked block up to date inside a user's SSH configuration. */
module SshConfig {
  import opened Wrappers

  const BEGIN_MARK: string := "# BEGIN TUNNET"
  const END_MARK: string := "# END TUNNET"

  predicate Occurs(s: string, pattern: string, i: nat) {
    i + |pattern| <= |s| && s[i..i + |pattern|] == pattern
  }

  predicate FirstAt(s: string, pattern: string, i: nat) {
    Occurs(s, pattern, i) && forall j :: 0 <= j < i ==> !Occurs(s, pattern, j)
  }

  /** The first occurrence of a pattern. */
  function Find(s: string, pattern: string): (r: Option<nat>)
    ensures r.Some? ==> FirstAt(s, pattern, r.value)
    ensures r.None? ==> forall j: nat :: !Occurs(s, pattern, j)
  {
    FindFrom(s, pattern, 0)
  }

  function FindFrom(s: string, pattern: string, i: nat): (r: Option<nat>)
    requires i <= |s|
    ensures r.Some? ==> i <= r.value && Occurs(s, pattern, r.value)
    ensures r.Some? ==> forall j :: i <= j < r.value ==> !Occurs(s, pattern, j)
    ensures r.None? ==> forall j: nat :: i <= j ==> !Occurs(s, pattern, j)
    decreases |s| - i
  {
    if Occurs(s, pattern, i) then Some(i)
    else if i == |s| then None
    else FindFrom(s, pattern, i + 1)
  }

  predicate StartsWith(s: string, c: char) {
    s != [] && s[0] == c
  }

  predicate EndsWith(s: string, c: char) {
    s != [] && s[|s| - 1] == c
  }

  function Terminated(block: string): string {
    if EndsWith(block, '\n') then block else block + "\n"
  }

  /** A blank line between existing text and an appended block. */
  function Separated(existing: string): string {
    if existing == [] then [] else Terminated(existing) + "\n"
  }

  /** The line end after the end marker goes with the block. */
  function SkipLineEnd(s: string, i: nat): (r: nat)
    requires i <= |s|
    ensures i <= r <= |s|
  {
    var afterCr := if StartsWith(s[i..], '\r') then i + 1 else i;
    if StartsWith(s[afterCr..], '\n') then afterCr + 1 else afterCr
  }

  /** Where the marked block lies, if the first begin marker is followed by an end marker. */
  function Region(existing: string, begin: string, end: string): (r: Option<(nat, nat)>)
    ensures r.Some? ==> r.value.0 <= r.value.1 <= |existing|
  {
    var start := Find(existing, begin);
    if start.None? then None
    else
      var stop := Find(existing[start.value..], end);
      if stop.None? then None
      else Some((start.value, SkipLineEnd(existing, start.value + stop.value + |end|)))
  }

  function Upsert(existing: string, begin: string, end: string, block: string): string {
    var region := Region(existing, begin, end);
    if region.Some?
    then existing[..region.value.0] + Terminated(block) + existing[region.value.1..]
    else Separated(existing) + Terminated(block)
  }

  /** How much of a text at i is a line end: both characters, either of them, or none. */
  function LineEndAt(s: string, i: nat): nat {
    if i + 1 < |s| && s[i] == '\r' && s[i + 1] == '\n' then 2
    else if i < |s| && (s[i] == '\r' || s[i] == '\n') then 1
    else 0
  }

  /** The block as a line of its own at the end, a blank line after the existing text. */
  predicate Appended(existing: string, line: string, out: string) {
    if existing == "" then out == line
    else if existing[|existing| - 1] == '\n' then out == existing + "\n" + line
    else out == existing + "\n\n" + line
  }

  /** The first begin marker is at i, and the first end marker from there on at e. */
  predicate BlockAt(existing: string, begin: string, end: string, i: nat, e: nat) {
    FirstAt(existing, begin, i) && NextAt(existing, end, i, e)
  }

  predicate NextAt(s: string, pattern: string, i: nat, e: nat) {
    i <= e && Occurs(s, pattern, e) && forall j :: i <= j < e ==> !Occurs(s, pattern, j)
  }

  predicate Replaced(existing: string, begin: string, end: string, line: string, out: string, i: nat, e: nat) {
    BlockAt(existing, begin, end, i, e) && out == existing[..i] + line + After(existing, e + |end|)
  }

  /** The text from i on, but for a line end there. */
  function After(s: string, i: nat): string {
    if i + LineEndAt(s, i) <= |s| then s[i + LineEndAt(s, i)..] else ""
  }

  function AsLine(block: string): string {
    if block != "" && block[|block| - 1] == '\n' then block else block + "\n"
  }

  /**
   The edit in terms of the texts: the block takes the place of all from the first
   begin marker to the line end after the next end marker; if there is no such
   place, it is appended.
   */
  ghost predicate Edited(
      existing: string, begin: string, end: string, block: string, out: string, place: Option<(nat, nat)>)
  {
    match place
    case Some((i, e)) => Replaced(existing, begin, end, AsLine(block), out, i, e)
    case None => (forall i, e :: !BlockAt(existing, begin, end, i, e)) && Appended(existing, AsLine(block), out)
  }

  lemma LineEndIsSkipped(s: string, i: nat)
    requires i <= |s|
    ensures SkipLineEnd(s, i) == i + LineEndAt(s, i)
  {
    if i < |s| {
      assert s[i..][0] == s[i];
    }
    if i + 1 < |s| {
      assert s[i + 1..][0] == s[i + 1];
    }
  }

  lemma AppendedIs(existing: string, block: string)
    ensures Appended(existing, Terminated(block), Separated(existing) + Terminated(block))
  {
    if existing != "" && !EndsWith(existing, '\n') {
      assert existing + "\n" + "\n" == existing + "\n\n";
    }
  }

  lemma FoundNext(s: string, pattern: string, i: nat, k: nat)
    requires i <= |s| && FirstAt(s[i..], pattern, k)
    ensures NextAt(s, pattern, i, i + k)
  {
    Shifted(s, pattern, i, k);
    forall j | i <= j < i + k ensures !Occurs(s, pattern, j) {
      Shifted(s, pattern, i, j - i);
    }
  }

  lemma ReplacedIs(existing: string, begin: string, end: string, block: string, i: nat, e: nat, stop: nat)
    requires BlockAt(existing, begin, end, i, e) && i <= |existing|
    requires stop == e + |end| + LineEndAt(existing, e + |end|) <= |existing|
    ensures Replaced(existing, begin, end, AsLine(block), existing[..i] + Terminated(block) + existing[stop..], i, e)
  {
  }

  lemma NoBlockAnywhere(existing: string, begin: string, end: string)
    requires Region(existing, begin, end).None?
    ensures forall i, e :: !BlockAt(existing, begin, end, i, e)
  {
    forall i: nat, e: nat ensures !BlockAt(existing, begin, end, i, e) {
      if FirstAt(existing, begin, i) {
        FindIs(existing, begin, i);
        if i <= e {
          Shifted(existing, end, i, e - i);
        }
      }
    }
  }

  /**
   What a user has in the file stays: all of it when there is no block to replace,
   else what is before the first begin marker and what is after the line of the end
   marker.
   */
  predicate KeepsText(
      existing: string, begin: string, end: string, block: string, out: string, place: Option<(nat, nat)>)
  {
    match place
    case None => existing <= out && IsSuffix(AsLine(block), out)
    case Some((i, e)) =>
      Occurs(existing, begin, i) && existing[..i] <= out && IsSuffix(After(existing, e + |end|), out)
  }

  predicate IsSuffix(rest: string, out: string) {
    |rest| <= |out| && out[|out| - |rest|..] == rest
  }

  lemma MiddleKeeps(before: string, line: string, rest: string)
    ensures before <= before + line + rest && IsSuffix(rest, before + line + rest)
  {
  }

  lemma AppendedKeeps(existing: string, line: string, out: string)
    requires Appended(existing, line, out)
    ensures existing <= out && IsSuffix(line, out)
  {
    if existing == "" {
    } else if existing[|existing| - 1] == '\n' {
      MiddleKeeps(existing, "\n", line);
    } else {
      MiddleKeeps(existing, "\n\n", line);
    }
  }

  lemma ReplacingEdits(existing: string, begin: string, end: string, block: string, i: nat, e: nat, stop: nat)
    requires BlockAt(existing, begin, end, i, e) && i <= |existing|
    requires stop == e + |end| + LineEndAt(existing, e + |end|) <= |existing|
    ensures var out := existing[..i] + Terminated(block) + existing[stop..];
            && Edited(existing, begin, end, block, out, Some((i, e)))
            && KeepsText(existing, begin, end, block, out, Some((i, e)))
  {
    assert existing[stop..] == After(existing, e + |end|);
    ReplacedIs(existing, begin, end, block, i, e, stop);
    ReplacedKeeps(existing, begin, end, block, existing[..i], existing[stop..], i, e);
  }

  lemma ReplacedKeeps(
      existing: string, begin: string, end: string, block: string, before: string, rest: string, i: nat, e: nat)
    requires Occurs(existing, begin, i) && before == existing[..i] && rest == After(existing, e + |end|)
    ensures KeepsText(existing, begin, end, block, before + Terminated(block) + rest, Some((i, e)))
  {
    MiddleKeeps(before, Terminated(block), rest);
  }

  lemma AppendingEdits(existing: string, begin: string, end: string, block: string)
    requires forall i, e :: !BlockAt(existing, begin, end, i, e)
    ensures var out := Separated(existing) + Terminated(block);
            Edited(existing, begin, end, block, out, None) && KeepsText(existing, begin, end, block, out, None)
  {
    AppendedIs(existing, block);
    AppendedKeeps(existing, Terminated(block), Separated(existing) + Terminated(block));
  }

  method PushBlock(text: string, block: string) returns (out: string)
    ensures out == text + Terminated(block)
  {
    out := text + block;
    if !EndsWith(block, '\n') {
      out := out + "\n";
      assert out == text + (block + "\n");
    }
  }

  method Separate(existing: string) returns (out: string)
    ensures out == Separated(existing)
  {
    out := existing;
    if out != [] && !EndsWith(out, '\n') {
      out := out + "\n";
    }
    if out != [] {
      out := out + "\n";
    }
  }

  /** Past a line end, if there is one at i. */
  method SkipEnd(s: string, i: nat) returns (r: nat)
    requires i <= |s|
    ensures r == SkipLineEnd(s, i) == i + LineEndAt(s, i)
  {
    r := i;
    if StartsWith(s[r..], '\r') {
      r := r + 1;
    }
    if StartsWith(s[r..], '\n') {
      r := r + 1;
    }
    LineEndIsSkipped(s, i);
  }

  /** Where the block is: from the first begin marker to past the line end after the next end marker. */
  method Locate(existing: string, begin: string, end: string) returns (r: Option<(nat, nat)>, ghost e: nat)
    ensures r == Region(existing, begin, end)
    ensures r.Some? ==> BlockAt(existing, begin, end, r.value.0, e) && r.value.0 <= r.value.1 <= |existing|
    ensures r.Some? ==> r.value.1 == e + |end| + LineEndAt(existing, e + |end|)
    ensures r.None? ==> forall i, k :: !BlockAt(existing, begin, end, i, k)
  {
    e := 0;
    r := None;
    var start := Find(existing, begin);
    if start.Some? {
      var relEnd := Find(existing[start.value..], end);
      if relEnd.Some? {
        var stop := SkipEnd(existing, start.value + relEnd.value + |end|);
        FoundNext(existing, end, start.value, relEnd.value);
        return Some((start.value, stop)), start.value + relEnd.value;
      }
    }
    NoBlockAnywhere(existing, begin, end);
  }

  method UpsertMarkedBlock(existing: string, begin: string, end: string, block: string)
    returns (out: string, ghost place: Option<(nat, nat)>)
    ensures out == Upsert(existing, begin, end, block)
    ensures Edited(existing, begin, end, block, out, place) && KeepsText(existing, begin, end, block, out, place)
  {
    var region, e := Locate(existing, begin, end);
    if region.Some? {
      out := PushBlock(existing[..region.value.0], block);
      out := out + existing[region.value.1..];
      ReplacingEdits(existing, begin, end, block, region.value.0, e, region.value.1);
      return out, Some((region.value.0, e));
    }
    out := Separate(existing);
    out := PushBlock(out, block);
    AppendingEdits(existing, begin, end, block);
    place := None;
  }

  // Blocks that can be found again

  /** Begins with the begin marker and ends with the first end marker in it and a line end. */
  predicate WellFormed(begin: string, end: string, block: string) {
    var t := Terminated(block);
    && |begin| <= |t| && t[..|begin|] == begin
    && |end| < |t| && Find(t, end) == Some(|t| - 1 - |end|)
  }

  predicate SingleLine(mark: string) {
    mark != [] && '\n' !in mark
  }

  lemma SameStart(a: string, b: string, n: nat, pattern: string, j: nat)
    requires n <= |a| && n <= |b| && a[..n] == b[..n] && j + |pattern| <= n
    ensures Occurs(a, pattern, j) <==> Occurs(b, pattern, j)
  {
    assert a[j..j + |pattern|] == a[..n][j..j + |pattern|];
    assert b[j..j + |pattern|] == b[..n][j..j + |pattern|];
  }

  lemma FindIs(s: string, pattern: string, i: nat)
    requires FirstAt(s, pattern, i)
    ensures Find(s, pattern) == Some(i)
  {
  }

  /** The end marker of a block is found where the block ends, whatever follows. */
  lemma EndIsFound(begin: string, end: string, block: string, rest: string)
    requires WellFormed(begin, end, block)
    ensures Find(Terminated(block) + rest, end) == Some(|Terminated(block)| - 1 - |end|)
  {
    var t := Terminated(block);
    var k := |t| - 1 - |end|;
    assert t[..|t|] == (t + rest)[..|t|];
    SameStart(t, t + rest, |t|, end, k);
    forall j | 0 <= j < k ensures !Occurs(t + rest, end, j) {
      SameStart(t, t + rest, |t|, end, j);
    }
    FindIs(t + rest, end, k);
  }

  lemma RegionEndsLine(s: string, begin: string, end: string, start: nat, k: nat)
    requires Find(s, begin) == Some(start) && Find(s[start..], end) == Some(k)
    requires start + k + |end| < |s| && s[start + k + |end|] == '\n'
    ensures Region(s, begin, end) == Some((start, start + k + |end| + 1))
  {
    var stop := start + k + |end|;
    assert s[stop..][0] == '\n';
  }

  /** A marker at the head of what follows is the first one, if none straddles into it. */
  lemma BeginIsFound(before: string, begin: string, tail: string)
    requires |begin| <= |tail| && tail[..|begin|] == begin
    requires forall j :: 0 <= j < |before| ==> !Occurs(before + begin, begin, j)
    ensures Find(before + tail, begin) == Some(|before|)
  {
    var s, n := before + tail, |before| + |begin|;
    assert s[..n] == before + begin && (before + begin)[..n] == before + begin;
    assert Occurs(before + begin, begin, |before|);
    SameStart(before + begin, s, n, begin, |before|);
    forall j | 0 <= j < |before| ensures !Occurs(s, begin, j) {
      SameStart(before + begin, s, n, begin, j);
    }
    FindIs(s, begin, |before|);
  }

  /** A well-formed block put where no earlier begin marker arises is the region found next time. */
  lemma RegionIsFound(before: string, begin: string, end: string, block: string, rest: string)
    requires WellFormed(begin, end, block)
    requires forall j :: 0 <= j < |before| ==> !Occurs(before + begin, begin, j)
    ensures Region(before + Terminated(block) + rest, begin, end) == Some((|before|, |before| + |Terminated(block)|))
  {
    var t := Terminated(block);
    var s := before + t + rest;
    assert s == before + (t + rest) && (t + rest)[..|begin|] == t[..|begin|];
    BeginIsFound(before, begin, t + rest);
    assert s[|before|..] == t + rest;
    EndIsFound(begin, end, block, rest);
    assert s[|before| + |t| - 1] == t[|t| - 1] == '\n';
    RegionEndsLine(s, begin, end, |before|, |t| - 1 - |end|);
  }

  /** Up to its first begin marker a text has no earlier one, however the marker continues. */
  lemma NoEarlierBegin(existing: string, begin: string, start: nat)
    requires Find(existing, begin) == Some(start)
    ensures forall j :: 0 <= j < start ==> !Occurs(existing[..start] + begin, begin, j)
  {
    var n := start + |begin|;
    assert existing[..n] == existing[..start] + begin;
    assert (existing[..start] + begin)[..n] == existing[..start] + begin;
    forall j | 0 <= j < start ensures !Occurs(existing[..start] + begin, begin, j) {
      SameStart(existing[..start] + begin, existing, n, begin, j);
    }
  }

  /** Existing text followed by line ends only. */
  predicate Padded(existing: string, sep: string) {
    && |existing| < |sep| && sep[..|existing|] == existing
    && forall i :: |existing| <= i < |sep| ==> sep[i] == '\n'
  }

  lemma SeparatedIsPadded(existing: string)
    requires existing != []
    ensures Padded(existing, Separated(existing))
  {
  }

  /** Nor does one arise across the blank line before an appended block. */
  lemma NoBeginAcrossSeparator(existing: string, begin: string)
    requires SingleLine(begin) && Find(existing, begin).None?
    ensures forall j :: 0 <= j < |Separated(existing)| ==> !Occurs(Separated(existing) + begin, begin, j)
  {
    var sep := Separated(existing);
    if existing != [] {
      SeparatedIsPadded(existing);
      forall j | 0 <= j < |sep| ensures !Occurs(sep + begin, begin, j) {
        NotAcrossSeparator(existing, sep, begin, begin, j);
      }
    }
  }

  /** A pattern does not occur across a character it lacks. */
  lemma CharacterBlocks(s: string, pattern: string, j: nat, n: nat)
    requires j <= n < |s| && n < j + |pattern| && s[n] !in pattern
    ensures !Occurs(s, pattern, j)
  {
    if j + |pattern| <= |s| {
      assert s[j..j + |pattern|][n - j] == s[n];
    }
  }

  /** A single-line pattern that reaches past existing text meets a line end. */
  lemma NotAcrossSeparator(existing: string, sep: string, pattern: string, rest: string, j: nat)
    requires Padded(existing, sep) && SingleLine(pattern) && j < |sep| && !Occurs(existing, pattern, j)
    ensures !Occurs(sep + rest, pattern, j)
  {
    var s := sep + rest;
    if j + |pattern| <= |existing| {
      assert existing[..|existing|] == s[..|existing|];
      SameStart(existing, s, |existing|, pattern, j);
    } else {
      CharacterBlocks(s, pattern, j, if j < |existing| then |existing| else j);
    }
  }

  lemma Shifted(s: string, pattern: string, a: nat, j: nat)
    requires a <= |s|
    ensures Occurs(s[a..], pattern, j) <==> Occurs(s, pattern, a + j)
  {
    if a + j + |pattern| <= |s| {
      assert s[a..][j..j + |pattern|] == s[a + j..a + j + |pattern|];
    }
  }

  // Editing again

  lemma MarksAreSingleLine()
    ensures SingleLine(BEGIN_MARK) && SingleLine(END_MARK)
  {
  }

  /** A block between two pieces of text is exchanged for another; both pieces stay as they are. */
  lemma BlockIsExchanged(before: string, current: string, after: string, begin: string, end: string, block: string)
    requires WellFormed(begin, end, current)
    requires forall j :: 0 <= j < |before| ==> !Occurs(before + begin, begin, j)
    ensures Upsert(before + Terminated(current) + after, begin, end, block) == before + Terminated(block) + after
  {
    var s := before + Terminated(current) + after;
    RegionIsFound(before, begin, end, current, after);
    assert s[..|before|] == before && s[|before| + |Terminated(current)|..] == after;
  }

  /** The first begin marker, if any, is followed by an end marker. */
  predicate Editable(existing: string, begin: string, end: string) {
    Find(existing, begin).None? || Region(existing, begin, end).Some?
  }

  /** A later edit replaces an earlier one completely and disturbs nothing else. */
  lemma LastEditWins(existing: string, begin: string, end: string, first: string, second: string)
    requires SingleLine(begin) && WellFormed(begin, end, first)
    requires Editable(existing, begin, end)
    ensures Upsert(Upsert(existing, begin, end, first), begin, end, second) == Upsert(existing, begin, end, second)
  {
    var region := Region(existing, begin, end);
    if region.Some? {
      NoEarlierBegin(existing, begin, region.value.0);
      BlockIsExchanged(existing[..region.value.0], first, existing[region.value.1..], begin, end, second);
    } else {
      NoBeginAcrossSeparator(existing, begin);
      BlockIsExchanged(Separated(existing), first, [], begin, end, second);
      assert Separated(existing) + Terminated(first) + [] == Separated(existing) + Terminated(first);
      assert Separated(existing) + Terminated(second) + [] == Separated(existing) + Terminated(second);
    }
  }

  /**
   Editing twice with a well-formed block is editing once, exactly when the first
   begin marker, if there is one, is followed by an end marker.
   */
  lemma EditingTwiceIsOnce(existing: string, begin: string, end: string, block: string)
    requires SingleLine(begin) && SingleLine(end) && WellFormed(begin, end, block)
    ensures Upsert(Upsert(existing, begin, end, block), begin, end, block) == Upsert(existing, begin, end, block)
            <==> Editable(existing, begin, end)
  {
    if Editable(existing, begin, end) {
      LastEditWins(existing, begin, end, block, block);
    } else {
      DanglingBeginSwallows(existing, begin, end, block);
    }
  }

  /** With a dangling begin marker the second edit replaces everything from that marker on. */
  lemma DanglingBeginSwallows(existing: string, begin: string, end: string, block: string)
    requires SingleLine(begin) && SingleLine(end) && WellFormed(begin, end, block)
    requires !Editable(existing, begin, end)
    ensures Upsert(Upsert(existing, begin, end, block), begin, end, block) ==
            existing[..Find(existing, begin).value] + Terminated(block)
    ensures |Upsert(Upsert(existing, begin, end, block), begin, end, block)| < |Upsert(existing, begin, end, block)|
  {
    var start := Find(existing, begin).value;
    DanglingAppends(existing, begin, end, block);
    SeparatedIsPadded(existing);
    SecondEdit(existing, Separated(existing), start, begin, end, block);
  }

  lemma DanglingAppends(existing: string, begin: string, end: string, block: string)
    requires begin != [] && !Editable(existing, begin, end)
    ensures existing != [] && Find(existing, begin).Some? && Find(existing[Find(existing, begin).value..], end).None?
    ensures Upsert(existing, begin, end, block) == Separated(existing) + Terminated(block)
  {
  }

  lemma SecondEdit(existing: string, sep: string, start: nat, begin: string, end: string, block: string)
    requires Padded(existing, sep) && SingleLine(end) && WellFormed(begin, end, block)
    requires Find(existing, begin) == Some(start) && Find(existing[start..], end).None?
    ensures Upsert(sep + Terminated(block), begin, end, block) == existing[..start] + Terminated(block)
    ensures start < |sep|
  {
    var t := Terminated(block);
    assert EndsWith(t, '\n');
    DanglingRegion(existing, sep, start, begin, end, t);
    assert (sep + t)[..|existing|] == existing;
    Cut(sep + t, existing, start, begin, end, block);
  }

  lemma Cut(s: string, existing: string, start: nat, begin: string, end: string, block: string)
    requires Region(s, begin, end) == Some((start, |s|))
    requires start <= |existing| <= |s| && s[..|existing|] == existing
    ensures Upsert(s, begin, end, block) == existing[..start] + Terminated(block)
  {
    assert s[..start] == existing[..start] && s[|s|..] == [];
  }

  lemma DanglingRegion(existing: string, sep: string, start: nat, begin: string, end: string, t: string)
    requires Padded(existing, sep) && SingleLine(end) && EndsWith(t, '\n')
    requires Find(existing, begin) == Some(start) && Find(existing[start..], end).None?
    requires |end| < |t| && Find(t, end) == Some(|t| - 1 - |end|)
    ensures Region(sep + t, begin, end) == Some((start, |sep + t|))
  {
    assert (sep + t)[..|existing|] == existing;
    BeginStays(existing, sep + t, begin, start);
    EndAfterDangling(existing, sep, start, end, t);
    RegionToTheEnd(sep + t, begin, end, start);
  }

  /** Text added behind does not move the first begin marker. */
  lemma BeginStays(existing: string, s: string, begin: string, start: nat)
    requires Find(existing, begin) == Some(start)
    requires |existing| <= |s| && s[..|existing|] == existing
    ensures Find(s, begin) == Some(start)
  {
    assert existing[..|existing|] == existing;
    SameStart(existing, s, |existing|, begin, start);
    forall j | 0 <= j < start ensures !Occurs(s, begin, j) {
      SameStart(existing, s, |existing|, begin, j);
    }
    FindIs(s, begin, start);
  }

  lemma RegionToTheEnd(s: string, begin: string, end: string, start: nat)
    requires Find(s, begin) == Some(start) && EndsWith(s, '\n')
    requires start + |end| < |s| && Find(s[start..], end) == Some(|s| - start - 1 - |end|)
    ensures Region(s, begin, end) == Some((start, |s|))
  {
    RegionEndsLine(s, begin, end, start, |s| - start - 1 - |end|);
  }

  lemma EndAfterDangling(existing: string, sep: string, start: nat, end: string, t: string)
    requires Padded(existing, sep) && SingleLine(end) && start <= |existing| && Find(existing[start..], end).None?
    requires |end| < |t| && Find(t, end) == Some(|t| - 1 - |end|)
    ensures Find((sep + t)[start..], end) == Some(|sep| + |t| - start - 1 - |end|)
  {
    var s := sep + t;
    var k := |s| - start - 1 - |end|;
    assert s[|sep|..] == t;
    Shifted(s, end, |sep|, |t| - 1 - |end|);
    Shifted(s, end, start, k);
    forall j | 0 <= j < k ensures !Occurs(s[start..], end, j) {
      NoEndBefore(existing, sep, start, end, t, j);
    }
    FindIs(s[start..], end, k);
  }

  lemma NoEndBefore(existing: string, sep: string, start: nat, end: string, t: string, j: nat)
    requires Padded(existing, sep) && SingleLine(end) && start <= |existing| && Find(existing[start..], end).None?
    requires |end| < |t| && Find(t, end) == Some(|t| - 1 - |end|)
    requires start + j < |sep| + |t| - 1 - |end|
    ensures !Occurs((sep + t)[start..], end, j)
  {
    var s := sep + t;
    Shifted(s, end, start, j);
    if start + j < |sep| {
      Shifted(existing, end, start, j);
      NotAcrossSeparator(existing, sep, end, t, start + j);
    } else {
      assert s[|sep|..] == t;
      Shifted(s, end, |sep|, start + j - |sep|);
    }
  }

  // The block the program writes

  ghost predicate Contains(s: string, pattern: string) {
    exists j :: Occurs(s, pattern, j)
  }

  /** Text without the pattern's first character in front changes nothing. */
  lemma AfterFixedText(fixed: string, s: string, pattern: string)
    requires pattern != [] && pattern[0] !in fixed
    ensures Contains(fixed + s, pattern) <==> Contains(s, pattern)
  {
    var t := fixed + s;
    assert t[|fixed|..] == s;
    forall j: nat | j < |fixed| ensures !Occurs(t, pattern, j) {
      NotInFixedText(fixed, s, pattern, j);
    }
    if j: nat :| Occurs(t, pattern, j) {
      Shifted(t, pattern, |fixed|, j - |fixed|);
    }
    if j: nat :| Occurs(s, pattern, j) {
      Shifted(t, pattern, |fixed|, j);
    }
  }

  lemma NotInFixedText(fixed: string, s: string, pattern: string, j: nat)
    requires pattern != [] && pattern[0] !in fixed && j < |fixed|
    ensures !Occurs(fixed + s, pattern, j)
  {
    if j + |pattern| <= |fixed + s| {
      assert (fixed + s)[j..j + |pattern|][0] == fixed[j];
    }
  }

  /** A character the pattern lacks keeps what is before it and what is after it apart. */
  lemma Apart(x: string, c: char, s: string, pattern: string)
    requires pattern != [] && c !in pattern
    ensures Contains(x + [c] + s, pattern) <==> Contains(x, pattern) || Contains(s, pattern)
  {
    var t := x + [c] + s;
    assert t[..|x|] == x && x[..|x|] == x && t[|x| + 1..] == s;
    if j: nat :| Occurs(t, pattern, j) {
      ApartAt(x, c, s, pattern, j);
    }
    if j: nat :| Occurs(x, pattern, j) {
      SameStart(x, t, |x|, pattern, j);
    }
    if j: nat :| Occurs(s, pattern, j) {
      Shifted(t, pattern, |x| + 1, j);
    }
  }

  lemma ApartAt(x: string, c: char, s: string, pattern: string, j: nat)
    requires pattern != [] && c !in pattern
    ensures Occurs(x + [c] + s, pattern, j) ==> Contains(x, pattern) || Contains(s, pattern)
  {
    var t := x + [c] + s;
    assert t[..|x|] == x && x[..|x|] == x && t[|x| + 1..] == s;
    if j + |pattern| <= |x| {
      SameStart(x, t, |x|, pattern, j);
    } else if j <= |x| {
      CharacterBlocks(t, pattern, j, |x|);
    } else if j <= |t| {
      Shifted(t, pattern, |x| + 1, j - |x| - 1);
    }
  }

  /** The three places where a path is put in, backslashes already turned into slashes. */
  function ProxyCommand(exe: string, stateDir: Option<string>): string {
    "\"" + exe + "\"" + " ssh-proxy %h %p" + StateDirArg(stateDir)
  }

  function StateDirArg(stateDir: Option<string>): string {
    if stateDir.Some? && stateDir.value != [] then " --state-dir \"" + stateDir.value + "\"" + "" else ""
  }

  const HOST_KEYS: string := "\tStrictHostKeyChecking yes\n"
  const PREFERRED: string := "\tPreferredAuthentications "
  const METHODS: string := "none,keyboard-interactive\n"
  const NO_PUBKEY: string := "\tPubkeyAuthentication no\n"
  const NO_PASSWORD: string := "\tPasswordAuthentication no\n"

  function Options(): string {
    HOST_KEYS + (PREFERRED + (METHODS + (NO_PUBKEY + NO_PASSWORD)))
  }

  /** All of the block before its end marker. */
  function BlockHead(exe: string, stateDir: Option<string>, knownHosts: string): string {
    BEGIN_MARK + "\n" + ("Host *.tunnet\n\tProxyCommand " +
      (ProxyCommand(exe, stateDir) + "\n" + ("\tUserKnownHostsFile " + (knownHosts + "\n" + Options()))))
  }

  function SshConfigBlock(exe: string, stateDir: Option<string>, knownHosts: string): string {
    BlockHead(exe, stateDir, knownHosts) + END_MARK + "\n"
  }

  lemma NoEndInBegin()
    ensures !Contains(BEGIN_MARK, END_MARK)
  {
    forall j: nat ensures !Occurs(BEGIN_MARK, END_MARK, j) {
      if j <= 2 {
        assert BEGIN_MARK[2] == 'B' && END_MARK[2] == 'E' && END_MARK[0] == '#' && BEGIN_MARK[1] == ' ';
        assert BEGIN_MARK[j..j + 12][2] == BEGIN_MARK[j + 2] && BEGIN_MARK[j..j + 12][0] == BEGIN_MARK[j];
      }
    }
  }

  lemma NoEndInOptions()
    ensures !Contains(Options(), END_MARK)
  {
    AfterFixedText(HOST_KEYS, PREFERRED + (METHODS + (NO_PUBKEY + NO_PASSWORD)), END_MARK);
    AfterFixedText(PREFERRED, METHODS + (NO_PUBKEY + NO_PASSWORD), END_MARK);
    NoEndInLastOptions();
  }

  lemma NoEndInLastOptions()
    ensures !Contains(METHODS + (NO_PUBKEY + NO_PASSWORD), END_MARK)
  {
    AfterFixedText(METHODS, NO_PUBKEY + NO_PASSWORD, END_MARK);
    AfterFixedText(NO_PUBKEY, NO_PASSWORD, END_MARK);
    AfterFixedText(NO_PASSWORD, [], END_MARK);
    assert NO_PASSWORD + [] == NO_PASSWORD;
  }

  lemma ProxyContains(exe: string, stateDir: Option<string>)
    ensures Contains(ProxyCommand(exe, stateDir), END_MARK) <==>
            || Contains(exe, END_MARK)
            || (stateDir.Some? && Contains(stateDir.value, END_MARK))
  {
    var arg := StateDirArg(stateDir);
    var rest := " ssh-proxy %h %p" + arg;
    assert ProxyCommand(exe, stateDir) == "\"" + (exe + ['"'] + rest);
    AfterFixedText("\"", exe + ['"'] + rest, END_MARK);
    Apart(exe, '"', rest, END_MARK);
    AfterFixedText(" ssh-proxy %h %p", arg, END_MARK);
    if stateDir.Some? && stateDir.value != [] {
      assert arg == " --state-dir \"" + (stateDir.value + ['"'] + "");
      AfterFixedText(" --state-dir \"", stateDir.value + ['"'] + "", END_MARK);
      Apart(stateDir.value, '"', "", END_MARK);
    }
  }

  lemma HeadContains(exe: string, stateDir: Option<string>, knownHosts: string)
    ensures Contains(BlockHead(exe, stateDir, knownHosts), END_MARK) <==>
            || Contains(exe, END_MARK)
            || (stateDir.Some? && Contains(stateDir.value, END_MARK))
            || Contains(knownHosts, END_MARK)
  {
    var last := knownHosts + ['\n'] + Options();
    var hosts := "\tUserKnownHostsFile " + last;
    var proxy := ProxyCommand(exe, stateDir) + ['\n'] + hosts;
    var body := "Host *.tunnet\n\tProxyCommand " + proxy;
    NoEndInBegin();
    NoEndInOptions();
    Apart(BEGIN_MARK, '\n', body, END_MARK);
    AfterFixedText("Host *.tunnet\n\tProxyCommand ", proxy, END_MARK);
    Apart(ProxyCommand(exe, stateDir), '\n', hosts, END_MARK);
    ProxyContains(exe, stateDir);
    AfterFixedText("\tUserKnownHostsFile ", last, END_MARK);
    Apart(knownHosts, '\n', Options(), END_MARK);
    assert BlockHead(exe, stateDir, knownHosts) == BEGIN_MARK + ['\n'] + body;
  }

  /** The block written can be found again if and only if none of the paths in it holds the end marker. */
  lemma WrittenBlockIsWellFormedIff(exe: string, stateDir: Option<string>, knownHosts: string)
    ensures WellFormed(BEGIN_MARK, END_MARK, SshConfigBlock(exe, stateDir, knownHosts)) <==>
            && !Contains(exe, END_MARK)
            && !(stateDir.Some? && Contains(stateDir.value, END_MARK))
            && !Contains(knownHosts, END_MARK)
  {
    var head := BlockHead(exe, stateDir, knownHosts);
    var block := SshConfigBlock(exe, stateDir, knownHosts);
    HeadContains(exe, stateDir, knownHosts);
    HeadEnds(exe, stateDir, knownHosts);
    MarkedBlock(head, block);
  }

  lemma HeadEnds(exe: string, stateDir: Option<string>, knownHosts: string)
    ensures EndsWith(BlockHead(exe, stateDir, knownHosts), '\n')
    ensures |BEGIN_MARK| <= |BlockHead(exe, stateDir, knownHosts)|
    ensures BlockHead(exe, stateDir, knownHosts)[..|BEGIN_MARK|] == BEGIN_MARK
  {
    assert EndsWith(Options(), '\n');
  }

  lemma MarkedBlock(head: string, block: string)
    requires block == head + END_MARK + "\n" && EndsWith(head, '\n')
    requires |BEGIN_MARK| <= |head| && head[..|BEGIN_MARK|] == BEGIN_MARK
    ensures WellFormed(BEGIN_MARK, END_MARK, block) <==> !Contains(head, END_MARK)
  {
    assert EndsWith(block, '\n') && Terminated(block) == block;
    assert block[..|BEGIN_MARK|] == BEGIN_MARK;
    assert block[|head|..|head| + |END_MARK|] == END_MARK;
    assert block[..|head|] == head && head[..|head|] == head;
    MarksAreSingleLine();
    forall j: nat | j < |head| ensures Occurs(block, END_MARK, j) <==> Occurs(head, END_MARK, j) {
      if j + |END_MARK| <= |head| {
        SameStart(head, block, |head|, END_MARK, j);
      } else {
        CharacterBlocks(block, END_MARK, j, |head| - 1);
      }
    }
    if !Contains(head, END_MARK) {
      FindIs(block, END_MARK, |head|);
    } else {
      var j: nat :| Occurs(head, END_MARK, j);
      assert Occurs(block, END_MARK, j);
    }
  }
}
