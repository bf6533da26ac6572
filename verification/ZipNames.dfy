/** Entry names: `zip_entry_name` and `zip_safe_name`. */
module ZipNames {
  import opened Text

  function Slashed(raw: string): string {
    if raw == [] then []
    else (if raw[0] == '\\' then ['/'] else if raw[0] == '\0' then [] else [raw[0]]) + Slashed(raw[1..])
  }

  predicate KeptPart(part: string) {
    part != [] && part != "." && part != ".."
  }

  /** Backslashes become slashes; NUL characters and empty, `.` and `..` segments go. */
  function EntryName(raw: string): string {
    var joined := Join(Filter(Split(Slashed(raw), '/'), KeptPart), '/');
    if joined == [] then "file" else joined
  }

  /** The last segment, trimmed, never `.`, `..` or empty. */
  function SafeName(raw: string): string {
    Cleaned(LastPart(EntryName(raw)))
  }

  function LastPart(name: string): string {
    var parts := Split(name, '/');
    parts[|parts| - 1]
  }

  function Cleaned(last: string): string {
    var cleaned := Trim(Slashed(last));
    if KeptPart(cleaned) then cleaned else "file"
  }

  /** A name no reader can resolve outside the archive: plain segments joined by slashes. */
  ghost predicate IsNormal(name: string) {
    && '\\' !in name && '\0' !in name
    && forall i | 0 <= i < |Split(name, '/')| :: KeptPart(Split(name, '/')[i])
  }

  lemma {:induction false} SlashedIsPlain(raw: string)
    ensures '\\' !in Slashed(raw) && '\0' !in Slashed(raw)
    ensures '\\' !in raw && '\0' !in raw ==> Slashed(raw) == raw
  {
    if raw != [] {
      SlashedIsPlain(raw[1..]);
      assert raw == [raw[0]] + raw[1..];
    }
  }

  /** Kept parts, each one of `parts`. */
  ghost predicate AllKept(kept: seq<string>, parts: seq<string>) {
    forall i | 0 <= i < |kept| :: KeptPart(kept[i]) && kept[i] in parts
  }

  lemma {:induction false} FilterParts(parts: seq<string>)
    ensures AllKept(Filter(parts, KeptPart), parts)
    ensures (forall i | 0 <= i < |parts| :: KeptPart(parts[i])) ==> Filter(parts, KeptPart) == parts
  {
    hide KeptPart, AllKept;
    if parts == [] {
      NoneKept(parts);
    } else {
      FilterParts(parts[1..]);
      KeepFirst(parts, Filter(parts[1..], KeptPart));
      if forall i | 0 <= i < |parts| :: KeptPart(parts[i]) {
        assert KeptPart(parts[0]);
        assert forall i | 0 <= i < |parts[1..]| :: parts[1..][i] == parts[i + 1];
        assert parts == [parts[0]] + parts[1..];
      }
    }
  }

  lemma NoneKept(parts: seq<string>)
    ensures AllKept([], parts)
  {
  }

  lemma KeepFirst(parts: seq<string>, rest: seq<string>)
    requires parts != [] && AllKept(rest, parts[1..])
    ensures AllKept(FilterOne(parts[0], KeptPart) + rest, parts)
  {
    hide KeptPart;
    var first := FilterOne(parts[0], KeptPart);
    var kept := first + rest;
    forall i | 0 <= i < |kept|
      ensures KeptPart(kept[i]) && kept[i] in parts
    {
      if i < |first| {
        assert kept[i] == parts[0];
      } else {
        var k := i - |first|;
        assert kept[i] == rest[k];
        assert KeptPart(rest[k]) && rest[k] in parts[1..];
        var m :| 0 <= m < |parts[1..]| && parts[1..][m] == rest[k];
        assert parts[m + 1] == rest[k];
      }
    }
  }

  lemma {:induction false} JoinKeepsOut(parts: seq<string>, c: char)
    requires c != '/' && forall i | 0 <= i < |parts| :: c !in parts[i]
    ensures c !in Join(parts, '/')
  {
    if |parts| > 1 {
      JoinKeepsOut(parts[1..], c);
    }
  }

  lemma {:induction false} SplitKeepsOut(s: string, c: char)
    requires c !in s
    ensures forall p | p in Split(s, '/') :: c !in p
  {
    if s != [] {
      SplitKeepsOut(s[1..], c);
      var rest := Split(s[1..], '/');
      assert rest[0] in rest;
      assert forall p | p in rest[1..] :: p in rest;
    }
  }

  lemma {:induction false} NormalParts(kept: seq<string>)
    requires kept != [] && Free(kept, '/')
    requires forall i | 0 <= i < |kept| :: KeptPart(kept[i]) && '\\' !in kept[i] && '\0' !in kept[i]
    ensures IsNormal(Join(kept, '/')) && Join(kept, '/') != []
  {
    SplitOfJoin(kept, '/');
    JoinKeepsOut(kept, '\\');
    JoinKeepsOut(kept, '\0');
    assert Split([], '/') == [[]];
  }

  lemma FileIsNormal()
    ensures IsNormal("file") && Split("file", '/') == ["file"]
  {
    SplitPrefix("file", [], '/');
  }

  /** Every entry name is normal, and exactly the normal names are left alone. */
  lemma EntryNameIsNormal(raw: string)
    ensures IsNormal(EntryName(raw))
    ensures EntryName(raw) == raw <==> IsNormal(raw)
  {
    var s := Slashed(raw);
    var parts := Split(s, '/');
    var kept := Filter(parts, KeptPart);
    SlashedIsPlain(raw);
    JoinOfSplit(s, '/');
    FilterParts(parts);
    FileIsNormal();
    SplitKeepsOut(s, '\\');
    SplitKeepsOut(s, '\0');
    if kept != [] {
      NormalParts(kept);
    }
    if IsNormal(raw) {
      assert kept == parts;
      assert KeptPart(Split(raw, '/')[0]);
    }
  }

  /** Normalising twice is normalising once. */
  lemma EntryNameIdempotent(raw: string)
    ensures EntryName(EntryName(raw)) == EntryName(raw)
  {
    EntryNameIsNormal(raw);
    EntryNameIsNormal(EntryName(raw));
  }

  // ---------------------------------------------------------------- what a raw name becomes

  lemma {:induction false} SlashedConcat(a: string, b: string)
    ensures Slashed(a + b) == Slashed(a) + Slashed(b)
  {
    if a == [] {
      assert a + b == b;
    } else {
      SlashedConcat(a[1..], b);
      assert (a + b)[1..] == a[1..] + b && (a + b)[0] == a[0];
    }
  }

  lemma SlashedChar(c: char)
    ensures Slashed([c]) == if c == '\\' then "/" else if c == '\0' then [] else [c]
  {
    assert [c][1..] == [];
  }

  /** A backslash separates segments like a slash. */
  lemma BackslashIsSlash(a: string, b: string)
    ensures EntryName(a + "\\" + b) == EntryName(a + "/" + b)
  {
    SlashedConcat(a + "\\", b);
    SlashedConcat(a + "/", b);
    SlashedConcat(a, "\\");
    SlashedConcat(a, "/");
    SlashedChar('\\');
    SlashedChar('/');
  }

  /** A NUL character is as good as absent. */
  lemma NulIsAbsent(a: string, b: string)
    ensures EntryName(a + "\0" + b) == EntryName(a + b)
  {
    SlashedConcat(a + "\0", b);
    SlashedConcat(a, "\0");
    SlashedConcat(a, b);
    SlashedChar('\0');
    Neutral(Slashed(a));
  }

  /** The segments that name something, in order. */
  ghost function Named(parts: seq<string>): seq<string> {
    if parts == [] then []
    else if parts[0] in {"", ".", ".."} then Named(parts[1..])
    else [parts[0]] + Named(parts[1..])
  }

  lemma {:induction false} FilterIsNamed(parts: seq<string>)
    ensures Filter(parts, KeptPart) == Named(parts)
  {
    if parts != [] {
      FilterIsNamed(parts[1..]);
    }
  }

  /** Segments joined by slashes become those of them that name something, in order; without any the name is `file`. */
  lemma {:induction false} EntryNameOfParts(parts: seq<string>)
    requires parts != [] && forall p | p in parts :: Plain(p)
    ensures EntryName(Join(parts, '/')) == if Named(parts) == [] then "file" else Join(Named(parts), '/')
  {
    var raw := Join(parts, '/');
    assert forall i | 0 <= i < |parts| :: Plain(parts[i]);
    JoinKeepsOut(parts, '\\');
    JoinKeepsOut(parts, '\0');
    SlashedIsPlain(raw);
    SplitOfJoin(parts, '/');
    FilterIsNamed(parts);
    JoinOfNamed(Named(parts), parts);
  }

  lemma {:induction false} JoinOfNamed(named: seq<string>, parts: seq<string>)
    requires named == Named(parts)
    ensures Join(named, '/') == [] <==> named == []
    decreases |parts|
  {
    if parts != [] && named != [] {
      if parts[0] in {"", ".", ".."} {
        JoinOfNamed(named, parts[1..]);
      } else if |named| > 1 {
        assert |Join(named, '/')| >= |named[0]|;
      }
    }
  }

  /** The three rules decide every name: each raw name is brought to segments joined by slashes. */
  lemma {:induction false} EntryNameOf(raw: string) returns (parts: seq<string>)
    ensures parts != [] && (forall p | p in parts :: Plain(p)) && Slashed(raw) == Join(parts, '/')
    ensures EntryName(raw) == EntryName(Join(parts, '/'))
  {
    parts := Split(Slashed(raw), '/');
    SlashedIsPlain(raw);
    JoinOfSplit(Slashed(raw), '/');
    SplitKeepsOut(Slashed(raw), '\\');
    SplitKeepsOut(Slashed(raw), '\0');
    SlashedIsPlain(Slashed(raw));
  }

  /** Characters that never survive in a safe name. */
  ghost predicate Plain(s: string) {
    '/' !in s && '\\' !in s && '\0' !in s
  }

  lemma LastPartPlain(name: string)
    requires IsNormal(name)
    ensures Plain(LastPart(name))
  {
    var parts := Split(name, '/');
    JoinOfSplit(name, '/');
    SplitKeepsOut(name, '\\');
    SplitKeepsOut(name, '\0');
    assert parts[|parts| - 1] in parts;
  }

  /** A plain, trimmed segment other than `.` and `..`. */
  ghost predicate Segment(n: string) {
    Plain(n) && Trim(n) == n && KeptPart(n)
  }

  lemma FallbackIsSegment(n: string)
    requires |n| == 4 && n[0] == 'f' && n[1] == 'i' && n[2] == 'l' && n[3] == 'e'
    ensures Segment(n)
  {
    TrimNothing(n);
  }

  lemma CleanedIsSegment(last: string)
    requires Plain(last)
    ensures Segment(Cleaned(last))
  {
    SlashedIsPlain(last);
    var cleaned := Trim(Slashed(last));
    if KeptPart(cleaned) {
      TrimmedIsPlain(last);
    } else {
      FallbackIsSegment(Cleaned(last));
    }
  }

  lemma TrimmedIsPlain(last: string)
    requires Plain(last)
    ensures Plain(Trim(last)) && Trim(Trim(last)) == Trim(last)
  {
    TrimIsTrimmed(last, '/');
    TrimIsTrimmed(last, '\\');
    TrimIsTrimmed(last, '\0');
  }

  /** A safe name is one normal, trimmed segment, and is its own safe name. */
  lemma SafeNameIsSafe(raw: string)
    ensures var n := SafeName(raw); IsNormal(n) && '/' !in n && Trim(n) == n && SafeName(n) == n
  {
    EntryNameIsNormal(raw);
    LastPartPlain(EntryName(raw));
    CleanedIsSegment(LastPart(EntryName(raw)));
    SegmentIsSafe(SafeName(raw));
  }

  /** The last segment is what stands after the last slash. */
  lemma {:induction false} LastPartIs(front: string, last: string)
    requires '/' !in last
    ensures LastPart(last) == last && LastPart(front + "/" + last) == last
  {
    var parts := Split(front, '/');
    SplitPrefix(last, [], '/');
    JoinOfSplit(front, '/');
    JoinSnoc(parts, last, '/');
    assert forall p | p in parts + [last] :: p in parts || p == last;
    SplitOfJoin(parts + [last], '/');
  }

  /** What a safe name is: the segment after the last slash of the entry name, trimmed, or `file` where that names nothing. */
  lemma SafeNameIs(raw: string, front: string, last: string)
    requires '/' !in last && (EntryName(raw) == last || EntryName(raw) == front + "/" + last)
    ensures SafeName(raw) == if Trim(last) in {"", ".", ".."} then "file" else Trim(last)
  {
    LastPartIs(front, last);
    EntryNameIsNormal(raw);
    LastPartPlain(EntryName(raw));
    SlashedIsPlain(last);
  }

  lemma SegmentIsSafe(n: string)
    requires Segment(n)
    ensures IsNormal(n) && SafeName(n) == n
  {
    SplitPrefix(n, [], '/');
    EntryNameIsNormal(n);
    assert LastPart(n) == n;
    SlashedIsPlain(n);
  }
}
