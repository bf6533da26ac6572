/** Splitting and joining text on a one-character separator. */
module Text {

  /** Rust `split`: always at least one part, empty parts kept. */
  function Split<T(==)>(s: seq<T>, sep: T): (parts: seq<seq<T>>)
    ensures |parts| >= 1
  {
    if s == [] then [[]]
    else
      var rest := Split(s[1..], sep);
      if s[0] == sep then [[]] + rest else [[s[0]] + rest[0]] + rest[1..]
  }

  function Join<T>(parts: seq<seq<T>>, sep: T): (s: seq<T>) {
    if |parts| == 0 then []
    else if |parts| == 1 then parts[0]
    else parts[0] + [sep] + Join(parts[1..], sep)
  }

  ghost predicate Free<T>(parts: seq<seq<T>>, sep: T) {
    forall p | p in parts :: sep !in p
  }

  lemma {:induction false} JoinFirst<T>(first: seq<T>, rest: seq<seq<T>>, sep: T)
    requires rest != []
    ensures Join([first] + rest, sep) == first + [sep] + Join(rest, sep)
  {
    assert ([first] + rest)[1..] == rest;
  }

  /** Growing the first part grows the text. */
  lemma {:induction false} JoinGrown<T>(x: T, rest: seq<seq<T>>, sep: T)
    requires rest != []
    ensures Join([[x] + rest[0]] + rest[1..], sep) == [x] + Join(rest, sep)
  {
    var tail := rest[1..];
    if tail == [] {
      assert [[x] + rest[0]] + tail == [[x] + rest[0]];
    } else {
      JoinFirst([x] + rest[0], tail, sep);
      assert [x] + rest[0] + [sep] + Join(tail, sep) == [x] + (rest[0] + [sep] + Join(tail, sep));
    }
  }

  lemma FreeFirst<T>(first: seq<T>, rest: seq<seq<T>>, sep: T)
    requires sep !in first && Free(rest, sep)
    ensures Free([first] + rest, sep)
    ensures rest != [] ==> sep !in rest[0] && Free(rest[1..], sep)
  {
    if rest != [] {
      assert rest[0] in rest;
      assert forall p | p in rest[1..] :: p in rest;
    }
  }

  /** Splitting loses nothing, and no part holds the separator. */
  lemma {:induction false} JoinOfSplit<T>(s: seq<T>, sep: T)
    ensures Join(Split(s, sep), sep) == s
    ensures Free(Split(s, sep), sep)
  {
    hide Join, Free;
    if s == [] {
      NothingSplit(sep);
    } else {
      JoinOfSplit(s[1..], sep);
      var rest := Split(s[1..], sep);
      assert s == [s[0]] + s[1..];
      FreeFirst([], rest, sep);
      if s[0] == sep {
        JoinFirst([], rest, sep);
        assert [] + [sep] + s[1..] == s;
      } else {
        JoinGrown(s[0], rest, sep);
        FreeFirst([s[0]] + rest[0], rest[1..], sep);
      }
    }
  }

  lemma NothingSplit<T>(sep: T)
    ensures Join([[]], sep) == [] && Free([[]], sep)
  {
  }

  lemma {:induction false} SplitPrefix<T>(p: seq<T>, tail: seq<T>, sep: T)
    requires sep !in p
    ensures Split(p + [sep] + tail, sep) == [p] + Split(tail, sep)
    ensures Split(p, sep) == [p]
  {
    if p == [] {
      assert ([] + [sep] + tail)[1..] == tail;
      assert [] + [sep] + tail == [sep] + tail;
    } else {
      SplitPrefix(p[1..], tail, sep);
      assert (p + [sep] + tail)[1..] == p[1..] + [sep] + tail;
      assert [p[0]] + p[1..] == p;
      assert ([p[1..]] + Split(tail, sep))[1..] == Split(tail, sep);
    }
  }

  /** Parts without the separator are found again. */
  lemma {:induction false} SplitOfJoin<T>(parts: seq<seq<T>>, sep: T)
    requires |parts| >= 1 && Free(parts, sep)
    ensures Split(Join(parts, sep), sep) == parts
  {
    assert parts[0] in parts;
    if |parts| == 1 {
      SplitPrefix(parts[0], [], sep);
    } else {
      assert forall p | p in parts[1..] :: p in parts;
      SplitOfJoin(parts[1..], sep);
      SplitPrefix(parts[0], Join(parts[1..], sep), sep);
    }
  }

  /** Appending a last part. */
  lemma {:induction false} JoinSnoc<T>(parts: seq<seq<T>>, last: seq<T>, sep: T)
    requires |parts| >= 1
    ensures Join(parts + [last], sep) == Join(parts, sep) + [sep] + last
  {
    if |parts| == 1 {
      assert (parts + [last])[1..] == [last];
    } else {
      JoinSnoc(parts[1..], last, sep);
      assert (parts + [last])[1..] == parts[1..] + [last];
    }
  }

  /** The number of parts is one more than the number of separators. */
  function Count<T(==)>(s: seq<T>, x: T): nat {
    if s == [] then 0 else (if s[0] == x then 1 else 0) + Count(s[1..], x)
  }

  lemma {:induction false} CountConcat<T>(a: seq<T>, b: seq<T>, x: T)
    ensures Count(a + b, x) == Count(a, x) + Count(b, x)
  {
    if a == [] {
      assert a + b == b;
    } else {
      CountConcat(a[1..], b, x);
      assert (a + b)[1..] == a[1..] + b;
    }
  }

  lemma {:induction false} SplitCount<T>(s: seq<T>, sep: T)
    ensures |Split(s, sep)| == Count(s, sep) + 1
  {
    if s != [] {
      SplitCount(s[1..], sep);
    }
  }

  lemma Associate<T>(a: seq<T>, b: seq<T>, c: seq<T>)
    ensures a + (b + c) == a + b + c
  {
  }

  lemma Neutral<T>(a: seq<T>)
    ensures a + [] == a && [] + a == a
  {
  }

  /** The elements that satisfy `keep`, in order. */
  function Filter<T>(s: seq<T>, keep: T -> bool): seq<T> {
    if s == [] then [] else FilterOne(s[0], keep) + Filter(s[1..], keep)
  }

  function FilterOne<T>(x: T, keep: T -> bool): seq<T> {
    if keep(x) then [x] else []
  }

  lemma {:induction false} FilterConcat<T>(a: seq<T>, b: seq<T>, keep: T -> bool)
    ensures Filter(a + b, keep) == Filter(a, keep) + Filter(b, keep)
  {
    if a == [] {
      Neutral(b);
    } else {
      FilterConcat(a[1..], b, keep);
      assert (a + b)[1..] == a[1..] + b && (a + b)[0] == a[0];
      Associate(FilterOne(a[0], keep), Filter(a[1..], keep), Filter(b, keep));
    }
  }

  lemma {:induction false} FilterSnoc<T>(a: seq<T>, x: T, keep: T -> bool)
    ensures Filter(a + [x], keep) == Filter(a, keep) + FilterOne(x, keep)
  {
    FilterConcat(a, [x], keep);
    assert [x][1..] == [];
    Neutral(FilterOne(x, keep));
  }

  /** Filtering keeps order and multiplicity: it splits at every kept element, and only there. */
  lemma {:induction false} FilterIs<T>(before: seq<T>, x: T, after: seq<T>, keep: T -> bool)
    ensures Filter(before + [x] + after, keep) == Filter(before, keep) + (if keep(x) then [x] else []) + Filter(after, keep)
  {
    FilterConcat(before + [x], after, keep);
    FilterSnoc(before, x, keep);
  }

  /** Concatenation of all parts. */
  function Concat<T>(parts: seq<seq<T>>): seq<T> {
    if parts == [] then [] else parts[0] + Concat(parts[1..])
  }

  lemma {:induction false} ConcatAppend<T>(a: seq<seq<T>>, b: seq<seq<T>>)
    ensures Concat(a + b) == Concat(a) + Concat(b)
  {
    if a == [] {
      assert a + b == b;
    } else {
      ConcatAppend(a[1..], b);
      assert (a + b)[1..] == a[1..] + b && (a + b)[0] == a[0];
      Associate(a[0], Concat(a[1..]), Concat(b));
    }
  }

  /** Unicode White_Space, the characters `char::is_whitespace` accepts and `trim` removes. */
  predicate IsWhitespace(c: char) {
    var n := c as int;
    || 0x09 <= n <= 0x0D || n == 0x20 || n == 0x85 || n == 0xA0 || n == 0x1680
    || 0x2000 <= n <= 0x200A || n == 0x2028 || n == 0x2029 || n == 0x202F || n == 0x205F || n == 0x3000
  }

  function TrimStart(s: string): string {
    if s == [] then [] else if IsWhitespace(s[0]) then TrimStart(s[1..]) else s
  }

  function TrimEnd(s: string): string {
    if s == [] then [] else if IsWhitespace(s[|s| - 1]) then TrimEnd(s[..|s| - 1]) else s
  }

  function Trim(s: string): string {
    TrimEnd(TrimStart(s))
  }

  lemma {:induction false} TrimStartKeeps(s: string, c: char)
    ensures var r := TrimStart(s); (c in r ==> c in s) && (r != [] ==> !IsWhitespace(r[0]))
    decreases |s|
  {
    if s != [] && IsWhitespace(s[0]) {
      TrimStartKeeps(s[1..], c);
    }
  }

  lemma {:induction false} TrimEndKeeps(s: string, c: char)
    ensures var r := TrimEnd(s);
            && (c in r ==> c in s)
            && (r != [] ==> s != [] && r[0] == s[0] && !IsWhitespace(r[|r| - 1]))
    decreases |s|
  {
    if s != [] && IsWhitespace(s[|s| - 1]) {
      TrimEndKeeps(s[..|s| - 1], c);
    }
  }

  lemma TrimNothing(s: string)
    requires s != [] && !IsWhitespace(s[0]) && !IsWhitespace(s[|s| - 1])
    ensures Trim(s) == s
  {
  }

  /** Trimming again changes nothing, and adds no character. */
  lemma TrimIsTrimmed(s: string, c: char)
    ensures Trim(Trim(s)) == Trim(s)
    ensures c in Trim(s) ==> c in s
  {
    TrimStartKeeps(s, c);
    TrimEndKeeps(TrimStart(s), c);
    var t := Trim(s);
    if t != [] {
      TrimNothing(t);
    }
  }

  ghost predicate AllWhitespace(s: string) {
    forall i | 0 <= i < |s| :: IsWhitespace(s[i])
  }

  lemma {:induction false} TrimStartIs(s: string) returns (front: string)
    ensures s == front + TrimStart(s) && AllWhitespace(front)
    decreases |s|
  {
    hide IsWhitespace;
    front := [];
    if s != [] && IsWhitespace(s[0]) {
      var rest := TrimStartIs(s[1..]);
      front := [s[0]] + rest;
      assert s == [s[0]] + s[1..];
    }
  }

  lemma {:induction false} TrimEndIs(s: string) returns (back: string)
    ensures s == TrimEnd(s) + back && AllWhitespace(back)
    decreases |s|
  {
    hide IsWhitespace;
    back := [];
    if s != [] && IsWhitespace(s[|s| - 1]) {
      var rest := TrimEndIs(s[..|s| - 1]);
      back := rest + [s[|s| - 1]];
      assert s == s[..|s| - 1] + [s[|s| - 1]];
    }
  }

  /** Trimming takes white space off both ends, and all of it. */
  lemma TrimIs(s: string) returns (front: string, back: string)
    ensures s == front + Trim(s) + back && AllWhitespace(front) && AllWhitespace(back)
    ensures var t := Trim(s); t != [] ==> !IsWhitespace(t[0]) && !IsWhitespace(t[|t| - 1])
    ensures Trim(s) == [] <==> AllWhitespace(s)
  {
    front := TrimStartIs(s);
    back := TrimEndIs(TrimStart(s));
    TrimStartKeeps(s, ' ');
    TrimEndKeeps(TrimStart(s), ' ');
    var t := Trim(s);
    Associate(front, t, back);
    if t != [] {
      assert s[|front|] == t[0];
    }
  }
}
