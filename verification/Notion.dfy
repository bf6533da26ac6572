/**
  * A Notion export: `parse_notion_export` builds pages with parents, databases and assets from zip
  * entries; `run_notion_import` publishes the pages and relies on the order it was given.
  */
module Notion {
  import opened Options
  import opened Bytes
  import opened Text
  import opened Uuids
  import opened Sequences
  import Csv
  import Compensation

  datatype Entry = Entry(name: string, data: seq<Byte>)
  datatype Page = Page(path: string, parentPath: Option<string>, title: string, markdown: string)
  datatype Database = Database(title: string, rows: seq<Csv.Row>)
  datatype Asset = Asset(parentPath: Option<string>, name: string, data: seq<Byte>)
  datatype Export = Export(pages: seq<Page>, databases: seq<Database>, assets: seq<Asset>)

  /** `notion_title` and lossy UTF-8 decoding, taken as given. */
  datatype Reader = Reader(title: string -> string, text: seq<Byte> -> string)

  // ---------------------------------------------------------------- names

  function Lower(c: char): char {
    if 'A' <= c <= 'Z' then c + (32 as char) else c
  }

  function Lowered(s: string): (r: string) {
    seq(|s|, i requires 0 <= i < |s| => Lower(s[i]))
  }

  predicate HasSuffix(name: string, suffix: string) {
    |name| >= |suffix| && Lowered(name[|name| - |suffix|..]) == Lowered(suffix)
  }

  function StripSuffix(name: string, suffix: string): string {
    if HasSuffix(name, suffix) then name[..|name| - |suffix|] else name
  }

  /** The position of the last slash before `end`. */
  function LastSlash(path: string, end: nat): (at: Option<nat>)
    requires end <= |path|
    ensures at.Some? ==> at.value < end && path[at.value] == '/' && forall q | at.value < q < end :: path[q] != '/'
    ensures at.None? ==> forall q | 0 <= q < end :: path[q] != '/'
  {
    if end == 0 then None else if path[end - 1] == '/' then Some(end - 1) else LastSlash(path, end - 1)
  }

  function ParentDir(path: string): string {
    match LastSlash(path, |path|)
    case None => ""
    case Some(at) => path[..at]
  }

  function BaseName(path: string): string {
    match LastSlash(path, |path|)
    case None => path
    case Some(at) => path[at + 1..]
  }

  function Depth(path: string): nat {
    |Split(path, '/')|
  }

  // ---------------------------------------------------------------- kinds

  datatype Kind = IsPage | IsDatabase | IsAsset

  function KindOf(e: Entry): Kind {
    if HasSuffix(e.name, ".md") then IsPage else if HasSuffix(e.name, ".csv") then IsDatabase else IsAsset
  }

  predicate IsHtml(e: Entry) {
    HasSuffix(e.name, ".html") || HasSuffix(e.name, ".htm")
  }

  /** The name ends in `.md`, in either letter case. */
  ghost predicate MdName(name: string) {
    var n := |name|;
    n >= 3 && name[n - 3] == '.' && name[n - 2] in {'m', 'M'} && name[n - 1] in {'d', 'D'}
  }

  ghost predicate CsvName(name: string) {
    var n := |name|;
    n >= 4 && name[n - 4] == '.' && name[n - 3] in {'c', 'C'} && name[n - 2] in {'s', 'S'} && name[n - 1] in {'v', 'V'}
  }

  ghost predicate HtmName(name: string) {
    var n := |name|;
    n >= 4 && name[n - 4] == '.' && name[n - 3] in {'h', 'H'} && name[n - 2] in {'t', 'T'} && name[n - 1] in {'m', 'M'}
  }

  /** The name ends in `.htm` or `.html`. */
  ghost predicate HtmlName(name: string) {
    HtmName(name) || (|name| > 0 && name[|name| - 1] in {'l', 'L'} && HtmName(name[..|name| - 1]))
  }

  /** What a name stands for: `.md` is a page, `.csv` a database, everything else a file. */
  ghost function NameKind(name: string): Kind {
    if MdName(name) then IsPage else if CsvName(name) then IsDatabase else IsAsset
  }

  lemma SuffixIs(name: string, suffix: string)
    ensures HasSuffix(name, suffix) <==> |name| >= |suffix| && forall i | 0 <= i < |suffix| :: Lower(name[|name| - |suffix| + i]) == Lower(suffix[i])
  {
    hide Lower;
    if |name| >= |suffix| {
      var tail := name[|name| - |suffix|..];
      assert forall i | 0 <= i < |suffix| :: Lowered(tail)[i] == Lower(name[|name| - |suffix| + i]) && Lowered(suffix)[i] == Lower(suffix[i]);
      if forall i | 0 <= i < |suffix| :: Lower(name[|name| - |suffix| + i]) == Lower(suffix[i]) {
        assert Lowered(tail) == Lowered(suffix);
      }
    }
  }

  lemma MdIs(name: string)
    ensures HasSuffix(name, ".md") <==> MdName(name)
  {
    hide HasSuffix;
    SuffixIs(name, ".md");
    if MdName(name) {
      var n := |name|;
      assert forall i | 0 <= i < 3 :: Lower(name[n - 3 + i]) == Lower(".md"[i]);
    } else if |name| >= 3 {
      var n := |name|;
      assert Lower(name[n - 3]) != Lower(".md"[0]) || Lower(name[n - 3 + 1]) != Lower(".md"[1]) || Lower(name[n - 3 + 2]) != Lower(".md"[2]);
    }
  }

  /** Four characters, the first a dot, that spell three letters in either case. */
  lemma FourIs(name: string, a: char, b: char, c: char, suffix: string)
    requires suffix == ['.', a, b, c] && 'a' <= a <= 'z' && 'a' <= b <= 'z' && 'a' <= c <= 'z'
    ensures HasSuffix(name, suffix) <==>
      var n := |name|; n >= 4 && name[n - 4] == '.' && Lower(name[n - 3]) == a && Lower(name[n - 2]) == b && Lower(name[n - 1]) == c
  {
    hide HasSuffix;
    SuffixIs(name, suffix);
    var n := |name|;
    if n >= 4 {
      assert name[n - 4 + 0] == name[n - 4] && name[n - 4 + 1] == name[n - 3] && name[n - 4 + 2] == name[n - 2] && name[n - 4 + 3] == name[n - 1];
      assert Lower(suffix[0]) == '.' && Lower(suffix[1]) == a && Lower(suffix[2]) == b && Lower(suffix[3]) == c;
      assert Lower(name[n - 4]) == '.' <==> name[n - 4] == '.';
      if HasSuffix(name, suffix) {
        assert Lower(name[n - 4 + 0]) == Lower(suffix[0]) && Lower(name[n - 4 + 1]) == Lower(suffix[1]);
        assert Lower(name[n - 4 + 2]) == Lower(suffix[2]) && Lower(name[n - 4 + 3]) == Lower(suffix[3]);
      } else {
        var i :| 0 <= i < 4 && Lower(name[n - 4 + i]) != Lower(suffix[i]);
        assert i == 0 || i == 1 || i == 2 || i == 3;
      }
    }
  }

  lemma EitherCase(c: char, lower: char, upper: char)
    requires 'a' <= lower <= 'z' && upper as int == lower as int - 32
    ensures Lower(c) == lower <==> c in {lower, upper}
  {
  }

  lemma CsvIs(name: string)
    ensures HasSuffix(name, ".csv") <==> CsvName(name)
  {
    hide HasSuffix, Lower;
    FourIs(name, 'c', 's', 'v', ".csv");
    var n := |name|;
    if n >= 4 {
      EitherCase(name[n - 3], 'c', 'C');
      EitherCase(name[n - 2], 's', 'S');
      EitherCase(name[n - 1], 'v', 'V');
    }
  }

  lemma HtmIs(name: string)
    ensures HasSuffix(name, ".htm") <==> HtmName(name)
  {
    hide HasSuffix, Lower;
    FourIs(name, 'h', 't', 'm', ".htm");
    var n := |name|;
    if n >= 4 {
      EitherCase(name[n - 3], 'h', 'H');
      EitherCase(name[n - 2], 't', 'T');
      EitherCase(name[n - 1], 'm', 'M');
    }
  }

  lemma SuffixSnoc(name: string, suffix: string, c: char)
    ensures HasSuffix(name, suffix + [c]) <==> |name| > 0 && Lower(name[|name| - 1]) == Lower(c) && HasSuffix(name[..|name| - 1], suffix)
  {
    hide Lower;
    if |name| > |suffix| {
      var front, n := name[..|name| - 1], |suffix|;
      var tail := front[|front| - n..];
      assert name[|name| - n - 1..] == tail + [name[|name| - 1]];
      assert Lowered(name[|name| - n - 1..]) == Lowered(tail) + [Lower(name[|name| - 1])];
      assert Lowered(suffix + [c]) == Lowered(suffix) + [Lower(c)];
      SameSnoc(Lowered(tail), Lower(name[|name| - 1]), Lowered(suffix), Lower(c));
    }
  }

  lemma SameSnoc(a: string, x: char, b: string, y: char)
    requires |a| == |b|
    ensures a + [x] == b + [y] <==> a == b && x == y
  {
    if a + [x] == b + [y] {
      assert (a + [x])[..|a|] == a && (b + [y])[..|b|] == b;
      assert (a + [x])[|a|] == x && (b + [y])[|b|] == y;
    }
  }

  lemma HtmlIs(e: Entry)
    ensures IsHtml(e) <==> HtmlName(e.name)
  {
    hide HasSuffix, Lower, HtmName;
    var name := e.name;
    HtmIs(name);
    SuffixSnoc(name, ".htm", 'l');
    assert ".htm" + ['l'] == ".html";
    if |name| > 0 {
      HtmIs(name[..|name| - 1]);
      EitherCase('l', 'l', 'L');
      EitherCase(name[|name| - 1], 'l', 'L');
    }
  }

  lemma KindIs(e: Entry)
    ensures KindOf(e) == NameKind(e.name)
  {
    hide HasSuffix, MdName, CsvName;
    MdIs(e.name);
    CsvIs(e.name);
  }

  /** Where the entries of one kind stand, in archive order. */
  function Origins(entries: seq<Entry>, kind: Kind): (at: seq<nat>)
    ensures Within(at, |entries|)
  {
    if entries == [] then []
    else
      var n := |entries| - 1;
      var before := Origins(entries[..n], kind);
      assert Within(before, n);
      if KindOf(entries[n]) == kind then before + [n] else before
  }

  lemma {:induction false} OriginsSnoc(entries: seq<Entry>, k: nat, kind: Kind)
    requires k < |entries|
    ensures Origins(entries[..k + 1], kind) == Origins(entries[..k], kind) + (if KindOf(entries[k]) == kind then [k] else [])
  {
    assert entries[..k + 1][..k] == entries[..k];
  }

  /** Every entry lands in exactly one of pages, databases and assets, and there exactly once. */
  lemma {:induction false} LandsOnce(entries: seq<Entry>, kind: Kind)
    ensures Ascending(Origins(entries, kind))
    ensures forall i: nat :: i in Origins(entries, kind) <==> i < |entries| && KindOf(entries[i]) == kind
  {
    hide KindOf;
    if entries != [] {
      var n := |entries| - 1;
      LandsOnce(entries[..n], kind);
      assert forall i: nat | i < n :: entries[..n][i] == entries[i];
    }
  }

  // ---------------------------------------------------------------- owners

  /** `folder_to_page`: a page's path without its suffix leads to the page; a later entry wins. */
  function Folders(entries: seq<Entry>): map<string, string> {
    if entries == [] then map[]
    else
      var e := entries[|entries| - 1];
      var before := Folders(entries[..|entries| - 1]);
      if KindOf(e) == IsPage then before[StripSuffix(e.name, ".md") := e.name] else before
  }

  /** The page of the nearest folder around `path` that ends before `end`. */
  function Nearest(folders: map<string, string>, path: string, end: nat): Option<string>
    requires end <= |path|
  {
    match LastSlash(path, end)
    case None => None
    case Some(at) =>
      if at == 0 then None else if path[..at] in folders then Some(folders[path[..at]]) else Nearest(folders, path, at)
  }

  function Owner(folders: map<string, string>, path: string): Option<string> {
    Nearest(folders, path, |path|)
  }

  lemma {:induction false} LastSlashOfPrefix(path: string, end: nat, k: nat)
    requires k <= end <= |path|
    ensures LastSlash(path[..end], k) == LastSlash(path, k)
  {
    if k > 0 && path[k - 1] != '/' {
      LastSlashOfPrefix(path, end, k - 1);
    }
  }

  /** The closure `owner_of`: walk outwards until a folder has a page or none is left. */
  method OwnerOf(folders: map<string, string>, path: string) returns (owner: Option<string>)
    ensures owner == Owner(folders, path)
  {
    var dir := ParentDir(path);
    ghost var end: nat := |path|;
    while dir != ""
      invariant end <= |path| && Nearest(folders, path, end) == Owner(folders, path)
      invariant dir == match LastSlash(path, end) case None => "" case Some(at) => path[..at]
      decreases |dir|
    {
      if dir in folders {
        return Some(folders[dir]);
      }
      end := |dir|;
      LastSlashOfPrefix(path, end, end);
      assert forall at: nat | at <= end :: path[..end][..at] == path[..at];
      dir := ParentDir(dir);
    }
    owner := None;
  }

  /** `folder` is a folder around `path`. */
  predicate Encloses(folder: string, path: string) {
    0 < |folder| < |path| && path[..|folder|] == folder && path[|folder|] == '/'
  }

  predicate PageOfFolder(e: Entry, folder: string) {
    KindOf(e) == IsPage && StripSuffix(e.name, ".md") == folder
  }

  /** Entry `i` is the last page of the folder. */
  ghost predicate LastPage(entries: seq<Entry>, folder: string, i: int) {
    0 <= i < |entries| && PageOfFolder(entries[i], folder) && forall j | i < j < |entries| :: !PageOfFolder(entries[j], folder)
  }

  lemma LastPageStays(entries: seq<Entry>, folder: string, i: int)
    requires entries != [] && !PageOfFolder(entries[|entries| - 1], folder) && LastPage(entries[..|entries| - 1], folder, i)
    ensures LastPage(entries, folder, i)
  {
    hide PageOfFolder;
    var before := entries[..|entries| - 1];
    assert forall k | 0 <= k < |before| :: before[k] == entries[k];
  }

  lemma {:induction false} FoldersAre(entries: seq<Entry>, folder: string)
    ensures folder in Folders(entries) ==> exists i :: LastPage(entries, folder, i) && Folders(entries)[folder] == entries[i].name
    ensures folder !in Folders(entries) ==> forall i | 0 <= i < |entries| :: !PageOfFolder(entries[i], folder)
  {
    hide KindOf, StripSuffix;
    if entries != [] {
      var n := |entries| - 1;
      var before := entries[..n];
      FoldersAre(before, folder);
      assert forall i | 0 <= i < n :: before[i] == entries[i];
      if PageOfFolder(entries[n], folder) {
        IsLastPage(entries, folder);
      } else if folder in Folders(before) {
        var i :| LastPage(before, folder, i) && Folders(before)[folder] == before[i].name;
        LastPageStays(entries, folder, i);
      }
    }
  }

  lemma IsLastPage(entries: seq<Entry>, folder: string)
    requires entries != [] && PageOfFolder(entries[|entries| - 1], folder)
    ensures LastPage(entries, folder, |entries| - 1)
  {
    hide PageOfFolder;
  }

  lemma {:induction false} NearestIs(folders: map<string, string>, path: string, end: nat)
    requires end <= |path|
    ensures Nearest(folders, path, end).None? ==> forall p | 0 < p < end && path[p] == '/' :: path[..p] !in folders
    ensures Nearest(folders, path, end).Some? ==>
      exists p :: 0 < p < end && path[p] == '/' && path[..p] in folders && Nearest(folders, path, end) == Some(folders[path[..p]])
                  && forall q | p < q < end && path[q] == '/' :: path[..q] !in folders
  {
    match LastSlash(path, end)
    case None =>
    case Some(at) =>
      if at > 0 && path[..at] !in folders {
        NearestIs(folders, path, at);
      }
  }

  /** `parent` is the page of the nearest folder around `path` that has one. */
  ghost predicate IsParent(entries: seq<Entry>, path: string, parent: nat) {
    && parent < |entries| && KindOf(entries[parent]) == IsPage
    && Encloses(StripSuffix(entries[parent].name, ".md"), path)
    && forall i | 0 <= i < |entries| && KindOf(entries[i]) == IsPage && Encloses(StripSuffix(entries[i].name, ".md"), path) ::
         |StripSuffix(entries[i].name, ".md")| <= |StripSuffix(entries[parent].name, ".md")|
  }

  /** The owner is the page of the nearest enclosing folder; without one no page's folder encloses the path. */
  lemma {:induction false} OwnerIsNearest(entries: seq<Entry>, path: string)
    ensures Owner(Folders(entries), path).Some? ==>
      exists i: nat :: IsParent(entries, path, i) && Owner(Folders(entries), path) == Some(entries[i].name)
    ensures Owner(Folders(entries), path).None? ==>
      forall i | 0 <= i < |entries| && KindOf(entries[i]) == IsPage :: !Encloses(StripSuffix(entries[i].name, ".md"), path)
  {
    hide KindOf, StripSuffix, Folders, Nearest;
    var folders := Folders(entries);
    NearestIs(folders, path, |path|);
    forall i | 0 <= i < |entries| && KindOf(entries[i]) == IsPage && Encloses(StripSuffix(entries[i].name, ".md"), path)
      ensures StripSuffix(entries[i].name, ".md") in folders
    {
      FoldersAre(entries, StripSuffix(entries[i].name, ".md"));
      assert PageOfFolder(entries[i], StripSuffix(entries[i].name, ".md"));
    }
    if Owner(folders, path).Some? {
      var p :| 0 < p < |path| && path[p] == '/' && path[..p] in folders && Owner(folders, path) == Some(folders[path[..p]])
               && forall q | p < q < |path| && path[q] == '/' :: path[..q] !in folders;
      FoldersAre(entries, path[..p]);
      var i :| LastPage(entries, path[..p], i) && folders[path[..p]] == entries[i].name;
      assert IsParent(entries, path, i);
    }
  }

  lemma SuffixHasNoSlash(name: string)
    requires HasSuffix(name, ".md")
    ensures Count(name[|name| - 3..], '/') == 0
  {
    var tail := name[|name| - 3..];
    var md := ".md";
    assert forall i | 0 <= i < 3 :: Lower(tail[i]) == Lowered(tail)[i] == Lowered(md)[i] == md[i];
    assert tail == [tail[0]] + [tail[1]] + [tail[2]];
    assert tail[1..] == [tail[1], tail[2]] && tail[1..][1..] == [tail[2]] && tail[1..][1..][1..] == [];
    assert Count(tail, '/') == Count(tail[1..], '/') == Count(tail[1..][1..], '/') == Count(tail[1..][1..][1..], '/');
  }

  /** A page whose folder encloses a path is strictly shallower. */
  lemma EnclosingIsShallower(e: Entry, path: string)
    requires KindOf(e) == IsPage && Encloses(StripSuffix(e.name, ".md"), path)
    ensures Depth(e.name) < Depth(path)
  {
    var folder := StripSuffix(e.name, ".md");
    var n := |folder|;
    var rest := path[n + 1..];
    SuffixHasNoSlash(e.name);
    assert e.name == folder + e.name[n..];
    assert path == folder + ['/'] + rest;
    CountConcat(folder, e.name[n..], '/');
    CountConcat(folder + ['/'], rest, '/');
    CountConcat(folder, ['/'], '/');
    assert ['/'][1..] == [];
    assert Count(['/'], '/') == 1;
    SplitCount(e.name, '/');
    SplitCount(path, '/');
  }

  // ---------------------------------------------------------------- the parser

  function PageOf(reader: Reader, folders: map<string, string>, e: Entry): Page {
    Page(e.name, Owner(folders, e.name), reader.title(StripSuffix(BaseName(e.name), ".md")), reader.text(e.data))
  }

  function DatabaseOf(reader: Reader, e: Entry): Database {
    Database(reader.title(StripSuffix(BaseName(e.name), ".csv")), Csv.Retain(Csv.Scan(Csv.StripBom(reader.text(e.data)), [], [], [], false)))
  }

  function AssetOf(folders: map<string, string>, e: Entry): Asset {
    Asset(Owner(folders, e.name), BaseName(e.name), e.data)
  }

  /** What the entries at the given positions become. */
  function Become<T>(entries: seq<Entry>, at: seq<nat>, become: Entry -> T): (r: seq<T>)
    requires Within(at, |entries|)
    ensures |r| == |at|
  {
    seq(|at|, k requires 0 <= k < |at| => become(entries[at[k]]))
  }

  function Pages(reader: Reader, entries: seq<Entry>, k: nat): seq<Page>
    requires k <= |entries|
  {
    Become(entries[..k], Origins(entries[..k], IsPage), (e: Entry) => PageOf(reader, Folders(entries), e))
  }

  function Databases(reader: Reader, entries: seq<Entry>, k: nat): seq<Database>
    requires k <= |entries|
  {
    Become(entries[..k], Origins(entries[..k], IsDatabase), (e: Entry) => DatabaseOf(reader, e))
  }

  function Assets(entries: seq<Entry>, k: nat): seq<Asset>
    requires k <= |entries|
  {
    Become(entries[..k], Origins(entries[..k], IsAsset), (e: Entry) => AssetOf(Folders(entries), e))
  }

  lemma {:induction false} BecomeSnoc<T>(entries: seq<Entry>, k: nat, kind: Kind, become: Entry -> T)
    requires k < |entries|
    ensures Become(entries[..k + 1], Origins(entries[..k + 1], kind), become)
         == Become(entries[..k], Origins(entries[..k], kind), become) + (if KindOf(entries[k]) == kind then [become(entries[k])] else [])
  {
    hide KindOf, Origins;
    OriginsSnoc(entries, k, kind);
  }

  // ---------------------------------------------------------------- what the export holds

  /** The positions of the entries of one kind, in archive order. */
  ghost predicate Picks(entries: seq<Entry>, kind: Kind, at: seq<nat>) {
    Ascending(at) && Within(at, |entries|) && forall i: nat :: i in at <==> i < |entries| && NameKind(entries[i].name) == kind
  }

  /** What is left of a name after its last slash and before its last `n` characters. */
  ghost predicate IsStem(name: string, n: nat, stem: string) {
    n <= |name| && '/' !in stem && (name[..|name| - n] == stem || exists dir :: name[..|name| - n] == dir + "/" + stem)
  }

  /** The page whose folder, its name without `.md`, is the nearest one around the path; none if no folder encloses it. */
  ghost predicate ParentIs(entries: seq<Entry>, path: string, parent: Option<string>) {
    match parent
    case None => forall i | 0 <= i < |entries| && MdName(entries[i].name) :: !Encloses(entries[i].name[..|entries[i].name| - 3], path)
    case Some(name) => exists p: nat :: p < |entries| && entries[p].name == name && NearestAround(entries, path, p)
  }

  ghost predicate NearestAround(entries: seq<Entry>, path: string, p: nat)
    requires p < |entries|
  {
    && MdName(entries[p].name) && Encloses(entries[p].name[..|entries[p].name| - 3], path)
    && forall i | 0 <= i < |entries| && MdName(entries[i].name) && Encloses(entries[i].name[..|entries[i].name| - 3], path) ::
         |entries[i].name| <= |entries[p].name|
  }

  ghost predicate PageFits(reader: Reader, entries: seq<Entry>, e: Entry, p: Page) {
    && p.path == e.name && p.markdown == reader.text(e.data) && ParentIs(entries, e.name, p.parentPath)
    && exists stem :: IsStem(e.name, 3, stem) && p.title == reader.title(stem)
  }

  ghost predicate DatabaseFits(reader: Reader, e: Entry, d: Database) {
    && d.rows == Csv.Retain(Csv.Scan(Csv.StripBom(reader.text(e.data)), [], [], [], false))
    && exists stem :: IsStem(e.name, 4, stem) && d.title == reader.title(stem)
  }

  ghost predicate AssetFits(entries: seq<Entry>, e: Entry, a: Asset) {
    a.data == e.data && IsStem(e.name, 0, a.name) && ParentIs(entries, e.name, a.parentPath)
  }

  /** The pages in archive order, one for each `.md` entry. */
  ghost predicate PagesFit(reader: Reader, entries: seq<Entry>, pages: seq<Page>) {
    exists at :: Picks(entries, IsPage, at) && |pages| == |at| && forall k | 0 <= k < |at| :: PageFits(reader, entries, entries[at[k]], pages[k])
  }

  ghost predicate DatabasesFit(reader: Reader, entries: seq<Entry>, databases: seq<Database>) {
    exists at :: Picks(entries, IsDatabase, at) && |databases| == |at| && forall k | 0 <= k < |at| :: DatabaseFits(reader, entries[at[k]], databases[k])
  }

  ghost predicate AssetsFit(entries: seq<Entry>, assets: seq<Asset>) {
    exists at :: Picks(entries, IsAsset, at) && |assets| == |at| && forall k | 0 <= k < |at| :: AssetFits(entries, entries[at[k]], assets[k])
  }

  /** The same pages by depth, in archive order within a depth. */
  ghost predicate SortedFrom(pages: seq<Page>, sorted: seq<Page>) {
    ByDepth(sorted) && forall d: nat :: Level(sorted, d) == Level(pages, d)
  }

  /** Every entry is a page, a database or an asset, by its name alone, once and in order; the pages are then sorted by depth. */
  ghost predicate Landed(reader: Reader, entries: seq<Entry>, x: Export) {
    && (exists pages :: PagesFit(reader, entries, pages) && SortedFrom(pages, x.pages))
    && DatabasesFit(reader, entries, x.databases) && AssetsFit(entries, x.assets)
  }

  lemma {:induction false} OriginsArePicks(entries: seq<Entry>, kind: Kind)
    ensures Picks(entries, kind, Origins(entries, kind))
  {
    hide KindOf, NameKind, Origins;
    LandsOnce(entries, kind);
    forall i: nat | i < |entries|
      ensures KindOf(entries[i]) == NameKind(entries[i].name)
    {
      KindIs(entries[i]);
    }
  }

  lemma BaseNameIs(name: string)
    ensures '/' !in BaseName(name) && (name == BaseName(name) || exists dir :: name == dir + "/" + BaseName(name))
  {
    match LastSlash(name, |name|)
    case None =>
    case Some(at) =>
      assert name == name[..at] + "/" + name[at + 1..];
  }

  /** Cutting the suffix off the last segment leaves the stem. */
  lemma StemIs(name: string, n: nat)
    requires n <= |name| && forall i | |name| - n <= i < |name| :: name[i] != '/'
    ensures var base := BaseName(name); n <= |base| && IsStem(name, n, base[..|base| - n])
  {
    var base := BaseName(name);
    BaseNameIs(name);
    match LastSlash(name, |name|)
    case None =>
    case Some(at) =>
      assert at < |name| - n;
      assert name[..|name| - n] == name[..at] + "/" + base[..|base| - n];
  }

  /** A suffix without a slash is the suffix of the last segment too. */
  lemma BaseSuffix(name: string, suffix: string)
    requires HasSuffix(name, suffix) && |suffix| <= |BaseName(name)|
    ensures HasSuffix(BaseName(name), suffix)
  {
    var base := BaseName(name);
    assert base[|base| - |suffix|..] == name[|name| - |suffix|..];
  }

  lemma MdStem(name: string)
    requires MdName(name)
    ensures IsStem(name, 3, StripSuffix(BaseName(name), ".md")) && StripSuffix(name, ".md") == name[..|name| - 3]
  {
    hide HasSuffix, BaseName, IsStem;
    MdIs(name);
    StemIs(name, 3);
    BaseSuffix(name, ".md");
  }

  lemma CsvStem(name: string)
    requires CsvName(name)
    ensures IsStem(name, 4, StripSuffix(BaseName(name), ".csv"))
  {
    hide HasSuffix, BaseName, IsStem;
    CsvIs(name);
    StemIs(name, 4);
    BaseSuffix(name, ".csv");
  }

  /** The owner found by the walk is the parent by name. */
  lemma {:induction false} OwnerIsParent(entries: seq<Entry>, path: string)
    ensures ParentIs(entries, path, Owner(Folders(entries), path))
  {
    hide KindOf, StripSuffix, Folders, Owner, MdName, Encloses;
    OwnerIsNearest(entries, path);
    forall i | 0 <= i < |entries|
      ensures KindOf(entries[i]) == IsPage <==> MdName(entries[i].name)
      ensures MdName(entries[i].name) ==> |entries[i].name| >= 3 && StripSuffix(entries[i].name, ".md") == entries[i].name[..|entries[i].name| - 3]
    {
      PageByName(entries[i]);
    }
    if Owner(Folders(entries), path).Some? {
      var p: nat :| IsParent(entries, path, p) && Owner(Folders(entries), path) == Some(entries[p].name);
      assert NearestAround(entries, path, p);
    }
  }

  lemma PageByName(e: Entry)
    ensures KindOf(e) == IsPage <==> MdName(e.name)
    ensures MdName(e.name) ==> |e.name| >= 3 && StripSuffix(e.name, ".md") == e.name[..|e.name| - 3]
  {
    KindIs(e);
    if MdName(e.name) {
      MdStem(e.name);
    }
  }

  lemma {:induction false} PagesAreFit(reader: Reader, entries: seq<Entry>)
    ensures PagesFit(reader, entries, Pages(reader, entries, |entries|))
  {
    hide Origins, Folders, Owner, ParentIs, MdName, CsvName, StripSuffix, BaseName, IsStem;
    var at, pages := Origins(entries, IsPage), Pages(reader, entries, |entries|);
    OriginsArePicks(entries, IsPage);
    assert entries[..|entries|] == entries;
    forall k | 0 <= k < |at|
      ensures PageFits(reader, entries, entries[at[k]], pages[k])
    {
      var e := entries[at[k]];
      assert at[k] in at;
      MdStem(e.name);
      OwnerIsParent(entries, e.name);
      assert pages[k] == PageOf(reader, Folders(entries), e);
    }
  }

  lemma {:induction false} DatabasesAreFit(reader: Reader, entries: seq<Entry>)
    ensures DatabasesFit(reader, entries, Databases(reader, entries, |entries|))
  {
    hide Origins, MdName, CsvName, StripSuffix, BaseName, IsStem, Csv.Scan, Csv.Retain, Csv.StripBom;
    var at, databases := Origins(entries, IsDatabase), Databases(reader, entries, |entries|);
    OriginsArePicks(entries, IsDatabase);
    assert entries[..|entries|] == entries;
    forall k | 0 <= k < |at|
      ensures DatabaseFits(reader, entries[at[k]], databases[k])
    {
      var e := entries[at[k]];
      assert at[k] in at;
      CsvStem(e.name);
      assert databases[k] == DatabaseOf(reader, e);
    }
  }

  lemma {:induction false} AssetsAreFit(entries: seq<Entry>)
    ensures AssetsFit(entries, Assets(entries, |entries|))
  {
    hide Origins, Folders, Owner, ParentIs, MdName, CsvName, BaseName;
    var at, assets := Origins(entries, IsAsset), Assets(entries, |entries|);
    OriginsArePicks(entries, IsAsset);
    assert entries[..|entries|] == entries;
    forall k | 0 <= k < |at|
      ensures AssetFits(entries, entries[at[k]], assets[k])
    {
      var e := entries[at[k]];
      BaseNameIs(e.name);
      assert e.name[..|e.name| - 0] == e.name;
      OwnerIsParent(entries, e.name);
      assert assets[k] == AssetOf(Folders(entries), e);
    }
  }

  lemma ExportIsLanded(reader: Reader, entries: seq<Entry>)
    ensures Landed(reader, entries, Export(SortByDepth(Pages(reader, entries, |entries|)), Databases(reader, entries, |entries|), Assets(entries, |entries|)))
  {
    hide Pages, Databases, Assets, PagesFit, DatabasesFit, AssetsFit, SortByDepth;
    PagesAreFit(reader, entries);
    DatabasesAreFit(reader, entries);
    AssetsAreFit(entries);
    SortIsStable(Pages(reader, entries, |entries|));
  }

  /** Insertion after every page that is not deeper. */
  function InsertByDepth(sorted: seq<Page>, p: Page): (r: seq<Page>) {
    if sorted == [] || Depth(sorted[|sorted| - 1].path) <= Depth(p.path) then sorted + [p]
    else InsertByDepth(sorted[..|sorted| - 1], p) + [sorted[|sorted| - 1]]
  }

  /** `sort_by_key` on the number of path parts. */
  function SortByDepth(pages: seq<Page>): (r: seq<Page>) {
    if pages == [] then [] else InsertByDepth(SortByDepth(pages[..|pages| - 1]), pages[|pages| - 1])
  }

  method ParseNotionExport(reader: Reader, entries: seq<Entry>) returns (r: Result<Export, string>)
    ensures r.Err? <==> exists i :: 0 <= i < |entries| && HtmlName(entries[i].name)
    ensures r.Ok? ==> Landed(reader, entries, r.value)
    ensures r.Ok? ==> r.value == Export(SortByDepth(Pages(reader, entries, |entries|)), Databases(reader, entries, |entries|), Assets(entries, |entries|))
  {
    hide IsHtml, KindOf, Owner, SortByDepth, Origins, Become, HtmlName, Landed;
    for k := 0 to |entries|
      invariant forall i | 0 <= i < k :: !HtmlName(entries[i].name)
    {
      HtmlIs(entries[k]);
      if IsHtml(entries[k]) {
        return Err("notion html export unsupported");
      }
    }
    var folders: map<string, string> := map[];
    for k := 0 to |entries|
      invariant folders == Folders(entries[..k])
    {
      assert entries[..k + 1][..k] == entries[..k];
      if KindOf(entries[k]) == IsPage {
        folders := folders[StripSuffix(entries[k].name, ".md") := entries[k].name];
      }
    }
    assert entries[..|entries|] == entries;
    var pages: seq<Page>, databases: seq<Database>, assets: seq<Asset> := [], [], [];
    NothingYet(reader, entries);
    for k := 0 to |entries|
      invariant pages == Pages(reader, entries, k) && databases == Databases(reader, entries, k) && assets == Assets(entries, k)
    {
      var e := entries[k];
      BecomeSnoc(entries, k, IsPage, (e: Entry) => PageOf(reader, Folders(entries), e));
      BecomeSnoc(entries, k, IsDatabase, (e: Entry) => DatabaseOf(reader, e));
      BecomeSnoc(entries, k, IsAsset, (e: Entry) => AssetOf(Folders(entries), e));
      match KindOf(e)
      case IsPage =>
        var owner := OwnerOf(folders, e.name);
        pages := pages + [Page(e.name, owner, reader.title(StripSuffix(BaseName(e.name), ".md")), reader.text(e.data))];
      case IsDatabase =>
        var rows := Csv.ParseCsv(reader.text(e.data));
        databases := databases + [Database(reader.title(StripSuffix(BaseName(e.name), ".csv")), rows)];
      case IsAsset =>
        var owner := OwnerOf(folders, e.name);
        assets := assets + [Asset(owner, BaseName(e.name), e.data)];
    }
    ExportIsLanded(reader, entries);
    r := Ok(Export(SortByDepth(pages), databases, assets));
  }

  lemma NothingYet(reader: Reader, entries: seq<Entry>)
    ensures Pages(reader, entries, 0) == [] && Databases(reader, entries, 0) == [] && Assets(entries, 0) == []
  {
  }

  // ---------------------------------------------------------------- the order

  predicate AtDepth(p: Page, d: nat) {
    Depth(p.path) == d
  }

  /** The pages of one depth, in order. */
  function Level(pages: seq<Page>, d: nat): seq<Page> {
    Filter(pages, (p: Page) => AtDepth(p, d))
  }

  ghost predicate ByDepth(pages: seq<Page>) {
    forall i, j | 0 <= i < j < |pages| :: Depth(pages[i].path) <= Depth(pages[j].path)
  }

  lemma LevelSnoc(pages: seq<Page>, p: Page, d: nat)
    ensures Level(pages + [p], d) == Level(pages, d) + (if AtDepth(p, d) then [p] else [])
  {
    FilterSnoc(pages, p, (p: Page) => AtDepth(p, d));
  }

  lemma {:induction false} LevelNone(pages: seq<Page>, d: nat)
    requires forall i | 0 <= i < |pages| :: !AtDepth(pages[i], d)
    ensures Level(pages, d) == []
  {
    if pages != [] {
      LevelNone(pages[1..], d);
    }
  }

  lemma {:induction false} InsertKeeps(sorted: seq<Page>, p: Page)
    requires ByDepth(sorted)
    ensures var r := InsertByDepth(sorted, p);
            ByDepth(r) && |r| == |sorted| + 1 && (forall x :: x in r <==> x in sorted || x == p)
  {
    hide Depth;
    if sorted != [] && Depth(sorted[|sorted| - 1].path) > Depth(p.path) {
      var n := |sorted| - 1;
      var front := sorted[..n];
      InsertKeeps(front, p);
      assert sorted == front + [sorted[n]];
      assert forall x | x in front :: Depth(x.path) <= Depth(sorted[n].path);
    }
  }

  lemma {:induction false} InsertIsStable(sorted: seq<Page>, p: Page, d: nat)
    requires ByDepth(sorted)
    ensures Level(InsertByDepth(sorted, p), d) == Level(sorted + [p], d)
  {
    hide Depth, Level, AtDepth;
    LevelSnoc(sorted, p, d);
    if sorted != [] && Depth(sorted[|sorted| - 1].path) > Depth(p.path) {
      var n := |sorted| - 1;
      var front, last := sorted[..n], sorted[n];
      InsertIsStable(front, p, d);
      assert sorted == front + [last];
      LevelSnoc(InsertByDepth(front, p), last, d);
      LevelSnoc(front, p, d);
      LevelSnoc(front, last, d);
      NotBoth(last, p, d);
    }
  }

  lemma NotBoth(a: Page, b: Page, d: nat)
    requires Depth(a.path) != Depth(b.path)
    ensures !AtDepth(a, d) || !AtDepth(b, d)
  {
  }

  /** The sort is by depth, loses and invents nothing, and keeps archive order within a depth. */
  lemma {:induction false} SortIsStable(pages: seq<Page>)
    ensures var r := SortByDepth(pages);
            ByDepth(r) && |r| == |pages| && (forall x :: x in r <==> x in pages) && forall d: nat :: Level(r, d) == Level(pages, d)
  {
    hide Level, Depth, AtDepth, InsertByDepth;
    if pages != [] {
      var n := |pages| - 1;
      var front := pages[..n];
      SortIsStable(front);
      var sorted := SortByDepth(front);
      InsertKeeps(sorted, pages[n]);
      assert pages == front + [pages[n]];
      forall d: nat
        ensures Level(SortByDepth(pages), d) == Level(pages, d)
      {
        InsertIsStable(sorted, pages[n], d);
        LevelSnoc(sorted, pages[n], d);
        LevelSnoc(front, pages[n], d);
      }
    }
  }

  lemma {:induction false} LevelSome(pages: seq<Page>, d: nat)
    requires Level(pages, d) != []
    ensures exists i :: 0 <= i < |pages| && AtDepth(pages[i], d)
  {
    if forall i | 0 <= i < |pages| :: !AtDepth(pages[i], d) {
      LevelNone(pages, d);
    }
  }

  lemma LevelCons(pages: seq<Page>, d: nat)
    requires pages != []
    ensures Level(pages, d) == (if AtDepth(pages[0], d) then [pages[0]] else []) + Level(pages[1..], d)
  {
  }

  /** Any stable sort by depth gives this very list. */
  lemma {:induction false} StableSortUnique(a: seq<Page>, b: seq<Page>)
    requires ByDepth(a) && ByDepth(b) && forall d: nat :: Level(a, d) == Level(b, d)
    ensures a == b
  {
    hide Depth, Level;
    if a == [] && b == [] {
      return;
    }
    var some := if a == [] then b else a;
    var d0 := Depth(some[0].path);
    LevelCons(some, d0);
    assert Level(a, d0) == Level(b, d0) != [];
    LevelSome(a, d0);
    LevelSome(b, d0);
    var da, db := Depth(a[0].path), Depth(b[0].path);
    LevelCons(a, da);
    LevelCons(b, db);
    LevelSome(b, da);
    LevelSome(a, db);
    assert da == db;
    LevelCons(b, da);
    assert a[0] == Level(a, da)[0] == Level(b, da)[0] == b[0];
    forall d: nat
      ensures Level(a[1..], d) == Level(b[1..], d)
    {
      LevelCons(a, d);
      LevelCons(b, d);
      var head := if AtDepth(a[0], d) then [a[0]] else [];
      assert Level(a, d)[|head|..] == Level(a[1..], d) && Level(b, d)[|head|..] == Level(b[1..], d);
    }
    StableSortUnique(a[1..], b[1..]);
    assert a == [a[0]] + a[1..] && b == [b[0]] + b[1..];
  }

  /** A page's parent, when it has one, is listed before it. */
  ghost predicate ParentsFirst(pages: seq<Page>) {
    forall i | 0 <= i < |pages| && pages[i].parentPath.Some? :: ListedBefore(pages, i, pages[i].parentPath.value)
  }

  ghost predicate ListedBefore(pages: seq<Page>, i: int, path: string) {
    exists j :: 0 <= j < i && j < |pages| && pages[j].path == path
  }

  lemma {:induction false} PageIsListed(reader: Reader, entries: seq<Entry>, i: nat)
    requires i < |entries| && KindOf(entries[i]) == IsPage
    ensures PageOf(reader, Folders(entries), entries[i]) in Pages(reader, entries, |entries|)
  {
    hide KindOf, Origins, Folders, PageOf;
    LandsOnce(entries, IsPage);
    var at := Origins(entries, IsPage);
    var k :| 0 <= k < |at| && at[k] == i;
    assert entries[..|entries|] == entries;
    assert Pages(reader, entries, |entries|)[k] == PageOf(reader, Folders(entries), entries[i]);
  }

  lemma {:induction false} ListedIsPage(reader: Reader, entries: seq<Entry>, p: Page)
    requires p in Pages(reader, entries, |entries|)
    ensures exists i :: 0 <= i < |entries| && KindOf(entries[i]) == IsPage && p == PageOf(reader, Folders(entries), entries[i])
  {
    hide KindOf, Origins, Folders, PageOf;
    LandsOnce(entries, IsPage);
    var at := Origins(entries, IsPage);
    assert entries[..|entries|] == entries;
    var k :| 0 <= k < |at| && p == Pages(reader, entries, |entries|)[k];
    assert at[k] in at;
    assert p == PageOf(reader, Folders(entries), entries[at[k]]);
  }

  /** A listed page's parent is itself a listed page, the nearest one around it, and strictly shallower. */
  lemma {:induction false} ParentIsShallower(reader: Reader, entries: seq<Entry>, p: Page)
    requires p in Pages(reader, entries, |entries|) && p.parentPath.Some?
    ensures exists i: nat :: IsParent(entries, p.path, i) && entries[i].name == p.parentPath.value
                             && PageOf(reader, Folders(entries), entries[i]) in Pages(reader, entries, |entries|)
                             && Depth(entries[i].name) < Depth(p.path)
  {
    hide KindOf, Depth, Folders, Owner, Pages;
    ListedIsPage(reader, entries, p);
    OwnerIsNearest(entries, p.path);
    var i: nat :| IsParent(entries, p.path, i) && p.parentPath == Some(entries[i].name);
    PageIsListed(reader, entries, i);
    EnclosingIsShallower(entries[i], p.path);
  }

  /** After the sort, every parent stands before its children. */
  lemma SortedParentsFirst(reader: Reader, entries: seq<Entry>)
    ensures ParentsFirst(SortByDepth(Pages(reader, entries, |entries|)))
  {
    hide KindOf, Depth, Folders, Owner, Pages, SortByDepth, StripSuffix, Encloses;
    var pages := Pages(reader, entries, |entries|);
    var sorted := SortByDepth(pages);
    SortIsStable(pages);
    forall i | 0 <= i < |sorted| && sorted[i].parentPath.Some?
      ensures ListedBefore(sorted, i, sorted[i].parentPath.value)
    {
      var p := sorted[i];
      assert p in sorted;
      ParentIsShallower(reader, entries, p);
      var e: nat :| IsParent(entries, p.path, e) && entries[e].name == p.parentPath.value
                    && PageOf(reader, Folders(entries), entries[e]) in pages && Depth(entries[e].name) < Depth(p.path);
      var parent := PageOf(reader, Folders(entries), entries[e]);
      assert parent in sorted;
      var j :| 0 <= j < |sorted| && sorted[j] == parent;
      assert j < i;
    }
  }

  // ---------------------------------------------------------------- publishing

  datatype Doc = Doc(id: Uuid, path: string, parent: Option<Uuid>)

  /** Each document has a parent exactly when its page has one, and it is an earlier document of that page. */
  ghost predicate Published(pages: seq<Page>, docs: seq<Doc>) {
    && |docs| <= |pages|
    && forall i | 0 <= i < |docs| ::
         && docs[i].path == pages[i].path
         && docs[i].parent.Some? == pages[i].parentPath.Some?
         && (docs[i].parent.Some? ==> EarlierDoc(docs, i, docs[i].parent.value, pages[i].parentPath.value))
  }

  ghost predicate EarlierDoc(docs: seq<Doc>, i: int, id: Uuid, path: string) {
    exists j :: 0 <= j < i && j < |docs| && docs[j].id == id && docs[j].path == path
  }

  /** `doc_by_path`: the paths published so far, each leading to a document of that path. */
  ghost predicate Located(docs: seq<Doc>, byPath: map<string, Uuid>) {
    && (forall i | 0 <= i < |docs| :: docs[i].path in byPath)
    && (forall path | path in byPath :: EarlierDoc(docs, |docs|, byPath[path], path))
  }

  lemma LocatedSnoc(docs: seq<Doc>, byPath: map<string, Uuid>, doc: Doc)
    requires Located(docs, byPath)
    ensures Located(docs + [doc], byPath[doc.path := doc.id])
  {
    var next, located := docs + [doc], byPath[doc.path := doc.id];
    forall path | path in located
      ensures EarlierDoc(next, |next|, located[path], path)
    {
      if path == doc.path {
        assert next[|docs|] == doc;
      } else {
        var j :| 0 <= j < |docs| && docs[j].id == byPath[path] && docs[j].path == path;
        assert next[j] == docs[j];
      }
    }
  }

  lemma PublishedSnoc(pages: seq<Page>, docs: seq<Doc>, doc: Doc)
    requires Published(pages, docs) && |docs| < |pages|
    requires doc.path == pages[|docs|].path && doc.parent.Some? == pages[|docs|].parentPath.Some?
    requires doc.parent.Some? ==> EarlierDoc(docs, |docs|, doc.parent.value, pages[|docs|].parentPath.value)
    ensures Published(pages, docs + [doc])
  {
    var next := docs + [doc];
    forall i | 0 <= i < |next| && next[i].parent.Some?
      ensures EarlierDoc(next, i, next[i].parent.value, pages[i].parentPath.value)
    {
      var j :| 0 <= j < i && j < |docs| && docs[j].id == next[i].parent.value && docs[j].path == pages[i].parentPath.value;
      assert next[j] == docs[j];
    }
  }

  /** The publishing loop. `minted` are the new documents' identities; fewer of them than pages is a run cut short. */
  method PublishPages(pages: seq<Page>, minted: seq<Uuid>) returns (docs: seq<Doc>, byPath: map<string, Uuid>)
    requires ParentsFirst(pages) && |minted| <= |pages|
    ensures |docs| == |minted| && Published(pages, docs) && Located(docs, byPath)
    ensures forall i | 0 <= i < |docs| :: docs[i].id == minted[i]
  {
    hide Published, Located;
    docs, byPath := [], map[];
    assert Published(pages, docs) && Located(docs, byPath) by { NothingPublished(pages); }
    for k := 0 to |minted|
      invariant |docs| == k && Published(pages, docs) && Located(docs, byPath)
      invariant forall i | 0 <= i < k :: docs[i].id == minted[i]
    {
      var page := pages[k];
      if page.parentPath.Some? {
        LookupHits(pages, docs, byPath);
      }
      var parent := if page.parentPath.Some? && page.parentPath.value in byPath then Some(byPath[page.parentPath.value]) else None;
      var doc := Doc(minted[k], page.path, parent);
      PublishedSnoc(pages, docs, doc);
      LocatedSnoc(docs, byPath, doc);
      docs := docs + [doc];
      byPath := byPath[page.path := minted[k]];
    }
  }

  lemma NothingPublished(pages: seq<Page>)
    ensures Published(pages, []) && Located([], map[])
  {
  }

  /** The parent lookup never misses. */
  lemma LookupHits(pages: seq<Page>, docs: seq<Doc>, byPath: map<string, Uuid>)
    requires ParentsFirst(pages) && Published(pages, docs) && Located(docs, byPath) && |docs| < |pages| && pages[|docs|].parentPath.Some?
    ensures var path := pages[|docs|].parentPath.value;
            path in byPath && EarlierDoc(docs, |docs|, byPath[path], path)
  {
    var path := pages[|docs|].parentPath.value;
    assert ListedBefore(pages, |docs|, path);
    var j :| 0 <= j < |docs| && pages[j].path == path;
    assert docs[j].path == path;
  }

  function Ids(docs: seq<Doc>): (ids: seq<nat>)
    ensures |ids| == |docs| && forall i | 0 <= i < |docs| :: ids[i] == docs[i].id
  {
    seq(|docs|, i requires 0 <= i < |docs| => docs[i].id)
  }

  /** Of the published documents those still standing hang where they were published, with no other document below them. */
  ghost predicate Undisturbed(docs: seq<Doc>, rows: Compensation.Table) {
    && (forall i | 0 <= i < |docs| && docs[i].id in rows :: rows[docs[i].id].parent == docs[i].parent)
    && (forall c, i | c in rows && 0 <= i < |docs| && rows[c].parent == Some(docs[i].id) :: exists k :: 0 <= k < |docs| && docs[k].id == c)
  }

  /** Whatever part of a Notion import still stands, undoing it newest first meets every child before its parent. */
  lemma NewestFirstIsSafe(pages: seq<Page>, docs: seq<Doc>, rows: Compensation.Table)
    requires Published(pages, docs) && Undisturbed(docs, rows) && forall i, j | 0 <= i < j < |docs| :: docs[i].id != docs[j].id
    ensures Compensation.Removable(rows, Ids(docs))
  {
    var ids := Ids(docs);
    forall m, c | 0 <= m < |ids| && c in rows && c != ids[m] && rows[c].parent == Some(ids[m])
      ensures Compensation.ListedAfter(ids, m, c)
    {
      assert rows[c].parent == Some(docs[m].id);
      var i :| 0 <= i < |docs| && docs[i].id == c;
      assert EarlierDoc(docs, i, docs[m].id, pages[i].parentPath.value);
      var j :| 0 <= j < i && j < |docs| && docs[j].id == docs[m].id;
      assert j == m && ids[i] == c;
    }
  }

  /** So an undisturbed import is undone completely when no call fails. */
  method UndoNotionImport(pages: seq<Page>, docs: seq<Doc>, store: Compensation.Store) returns (out: Compensation.Outcome)
    requires Published(pages, docs) && Undisturbed(docs, store.documents) && forall i, j | 0 <= i < j < |docs| :: docs[i].id != docs[j].id
    requires store.Valid()
    modifies store
    ensures store.Valid() && (Compensation.NoFaults(store.fails) ==> out.failed == 0)
    ensures out.failed == 0 ==> forall i | 0 <= i < |docs| :: docs[i].id !in store.documents
  {
    hide Published, Undisturbed, Compensation.RemovableFrom, Compensation.ChildrenFirst, Compensation.Integrity, Compensation.NoFaults;
    NewestFirstIsSafe(pages, docs, store.documents);
    ghost var gone;
    out, gone := store.Compensate(Compensation.Refs(Ids(docs), [], []));
    assert forall i | 0 <= i < |docs| :: Ids(docs)[i] == docs[i].id;
  }

  /** Where an asset goes: its owner's document, or the first one for a loose file; dropped only without pages. */
  method PlaceAsset(asset: Asset, docs: seq<Doc>, byPath: map<string, Uuid>) returns (target: Option<Uuid>)
    requires Located(docs, byPath) && (asset.parentPath.Some? ==> exists i :: 0 <= i < |docs| && docs[i].path == asset.parentPath.value)
    ensures target.None? <==> docs == []
    ensures target.Some? && asset.parentPath.None? ==> target.value == docs[0].id
    ensures target.Some? && asset.parentPath.Some? ==> EarlierDoc(docs, |docs|, target.value, asset.parentPath.value)
  {
    match asset.parentPath
    case None => target := if docs == [] then None else Some(docs[0].id);
    case Some(path) => target := if path in byPath then Some(byPath[path]) else None;
  }

  /** An asset's owner is always one of the pages, so a complete run has a document for it. */
  lemma {:induction false} AssetOwnerIsListed(reader: Reader, entries: seq<Entry>, name: string)
    requires Owner(Folders(entries), name).Some?
    ensures exists p :: p in SortByDepth(Pages(reader, entries, |entries|)) && p.path == Owner(Folders(entries), name).value
  {
    hide KindOf, Folders, Owner, Pages, SortByDepth;
    OwnerIsNearest(entries, name);
    var i: nat :| IsParent(entries, name, i) && Owner(Folders(entries), name) == Some(entries[i].name);
    PageIsListed(reader, entries, i);
    SortIsStable(Pages(reader, entries, |entries|));
    assert PageOf(reader, Folders(entries), entries[i]) in SortByDepth(Pages(reader, entries, |entries|));
  }

  /** The whole import of pages: parse, sort, publish. */
  method ImportNotionPages(reader: Reader, entries: seq<Entry>, minted: seq<Uuid>) returns (r: Result<seq<Doc>, string>)
    ensures r.Err? <==> exists i :: 0 <= i < |entries| && HtmlName(entries[i].name)
    ensures r.Ok? ==> Published(SortByDepth(Pages(reader, entries, |entries|)), r.value)
    ensures r.Ok? && |minted| >= |Pages(reader, entries, |entries|)| ==> |r.value| == |Pages(reader, entries, |entries|)|
  {
    hide HtmlName, Landed, Pages, SortByDepth, Published;
    var parsed := ParseNotionExport(reader, entries);
    match parsed
    case Err(e) => r := Err(e);
    case Ok(found) =>
      SortedParentsFirst(reader, entries);
      SortIsStable(Pages(reader, entries, |entries|));
      var some := if |minted| <= |found.pages| then minted else minted[..|found.pages|];
      var docs, _ := PublishPages(found.pages, some);
      r := Ok(docs);
  }
}
