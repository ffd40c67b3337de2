/**
 Output files of a batch: createTemporaryFiles makes a file for each logical name with content,
 appendBlobRowsToFiles then writes the trimmed contents.  Both iterate over Go maps, whose
 order is arbitrary.
 */
module OutputFiles {
  import opened Collections

  /** A value in the JSON object of a row; the second pass accepts strings and null only. */
  datatype Json = Text(s: string) | Null | Other

  datatype BlobRow = NoBlobs | Blobs(m: map<string, Json>)

  // ---------------------------------------------------------------- strings.TrimSpace

  /** unicode.IsSpace. */
  predicate IsSpace(c: char) {
    || '\t' <= c <= '\r' || c == ' ' || c == '\U{85}' || c == '\U{A0}' || c == '\U{1680}'
    || '\U{2000}' <= c <= '\U{200A}' || c == '\U{2028}' || c == '\U{2029}' || c == '\U{202F}' || c == '\U{205F}'
    || c == '\U{3000}'
  }

  /** The white space among the ASCII characters. */
  lemma AsciiSpace(c: char)
    requires c < '\U{80}'
    ensures IsSpace(c) <==> c in "\t\n\U{0B}\U{0C}\r "
  {
    var spaces := "\t\n\U{0B}\U{0C}\r ";
    assert spaces[0] == '\t' && spaces[1] == '\n' && spaces[2] == '\U{0B}' && spaces[3] == '\U{0C}';
    assert spaces[4] == '\r' && spaces[5] == ' ';
  }

  predicate Blank(s: string) {
    forall k :: 0 <= k < |s| ==> IsSpace(s[k])
  }

  function TrimLeft(s: string): string {
    if s != "" && IsSpace(s[0]) then TrimLeft(s[1..]) else s
  }

  function TrimRight(s: string): string {
    if s != "" && IsSpace(s[|s| - 1]) then TrimRight(s[..|s| - 1]) else s
  }

  function TrimSpace(s: string): string {
    TrimRight(TrimLeft(s))
  }

  lemma {:induction false} TrimLeftCuts(s: string) returns (m: nat)
    ensures m <= |s| && TrimLeft(s) == s[m..] && Blank(s[..m])
    ensures m == |s| || !IsSpace(s[m])
  {
    m := 0;
    if s != "" && IsSpace(s[0]) {
      var t := s[1..];
      var k := TrimLeftCuts(t);
      m := k + 1;
      assert t[k..] == s[m..];
      forall j | 0 <= j < m
        ensures IsSpace(s[j])
      {
        if j > 0 { assert t[..k][j - 1] == s[j]; }
      }
    }
  }

  lemma BlankLonger(s: string, n: nat)
    requires n < |s| && Blank(s[..|s| - 1][n..]) && IsSpace(s[|s| - 1])
    ensures Blank(s[n..])
  {
    assert s[n..] == s[..|s| - 1][n..] + [s[|s| - 1]];
  }

  lemma TakeTwice(s: string, n: nat)
    requires n < |s|
    ensures s[..|s| - 1][..n] == s[..n] && (n > 0 ==> s[..|s| - 1][n - 1] == s[n - 1])
  {
  }

  lemma {:induction false} TrimRightCuts(s: string) returns (n: nat)
    ensures n <= |s| && TrimRight(s) == s[..n] && Blank(s[n..])
    ensures n == 0 || !IsSpace(s[n - 1])
  {
    n := |s|;
    if s != "" && IsSpace(s[n - 1]) {
      n := TrimRightCuts(s[..|s| - 1]);
      TakeTwice(s, n);
      BlankLonger(s, n);
    }
  }

  lemma CutTwice(s: string, m: nat, k: nat)
    requires m + k <= |s|
    ensures s[m..][..k] == s[m..m + k] && s[m..][k..] == s[m + k..]
  {
  }

  /** TrimSpace drops exactly the white space at both ends. */
  lemma TrimSpaceCuts(s: string) returns (m: nat, n: nat)
    ensures m <= n <= |s| && TrimSpace(s) == s[m..n] && Blank(s[..m]) && Blank(s[n..])
    ensures m == n || (!IsSpace(s[m]) && !IsSpace(s[n - 1]))
  {
    m := TrimLeftCuts(s);
    var k := TrimRightCuts(s[m..]);
    n := m + k;
    CutTwice(s, m, k);
  }

  lemma TrimSpaceEmpty(s: string)
    ensures TrimSpace(s) == "" <==> Blank(s)
  {
    var m, n := TrimSpaceCuts(s);
    if m == n {
      forall j | 0 <= j < |s|
        ensures IsSpace(s[j])
      {
        if j < m { assert s[..m][j] == s[j]; } else { assert s[m..][j - m] == s[j]; }
      }
    }
  }

  // ---------------------------------------------------------------- what the files hold

  function Value(row: BlobRow, f: string): Json {
    if row.Blobs? && f in row.m then row.m[f] else Text("")
  }

  /** The row asks for the file: any value but the empty string counts, null included. */
  predicate Asks(row: BlobRow, f: string) {
    row.Blobs? && f in row.m && row.m[f] != Text("")
  }

  function Line(row: BlobRow, f: string): string {
    var v := Value(row, f);
    var t := if v.Text? then TrimSpace(v.s) else "";
    if t == "" then "" else t + "\n"
  }

  /** The lines of one file in row order. */
  function Contents(rows: seq<BlobRow>, f: string): string {
    if rows == [] then "" else Contents(rows[..|rows| - 1], f) + Line(rows[|rows| - 1], f)
  }

  function RowNames(row: BlobRow): set<string> {
    if row.Blobs? then set f | f in row.m && row.m[f] != Text("") else {}
  }

  function Names(rows: seq<BlobRow>): set<string> {
    if rows == [] then {} else Names(rows[..|rows| - 1]) + RowNames(rows[|rows| - 1])
  }

  /** json.Unmarshal into map[string]string accepts the row. */
  predicate Readable(row: BlobRow) {
    row.Blobs? ==> forall f :: f in row.m ==> !row.m[f].Other?
  }

  lemma {:induction false} NamesAreAsked(rows: seq<BlobRow>, f: string)
    ensures f in Names(rows) <==> exists k :: 0 <= k < |rows| && Asks(rows[k], f)
  {
    if rows != [] {
      var n := |rows| - 1;
      NamesAreAsked(rows[..n], f);
      if k :| 0 <= k < |rows| && Asks(rows[k], f) {
        if k < n { assert Asks(rows[..n][k], f); }
      }
      if f in Names(rows[..n]) {
        var k :| 0 <= k < n && Asks(rows[..n][k], f);
        assert Asks(rows[k], f);
      }
    }
  }

  /** The row has text that is not blank for the file. */
  predicate Carries(row: BlobRow, f: string) {
    row.Blobs? && f in row.m && row.m[f].Text? && !Blank(row.m[f].s)
  }

  lemma LineCarries(row: BlobRow, f: string)
    ensures Line(row, f) != "" <==> Carries(row, f)
    ensures Carries(row, f) ==> Asks(row, f)
  {
    var v := Value(row, f);
    if v.Text? { TrimSpaceEmpty(v.s); }
  }

  ghost predicate SomeCarries(rows: seq<BlobRow>, f: string) {
    exists k :: 0 <= k < |rows| && Carries(rows[k], f)
  }

  lemma SomeCarriesLast(rows: seq<BlobRow>, f: string)
    requires rows != []
    ensures SomeCarries(rows, f) <==> SomeCarries(rows[..|rows| - 1], f) || Carries(rows[|rows| - 1], f)
  {
    var n := |rows| - 1;
    if k :| 0 <= k < |rows| && Carries(rows[k], f) {
      if k < n { assert Carries(rows[..n][k], f); }
    }
    if k :| 0 <= k < n && Carries(rows[..n][k], f) {
      assert Carries(rows[k], f);
    }
  }

  lemma CarriedIsNamed(rows: seq<BlobRow>, f: string)
    requires SomeCarries(rows, f)
    ensures f in Names(rows)
  {
    var k :| 0 <= k < |rows| && Carries(rows[k], f);
    LineCarries(rows[k], f);
    NamesAreAsked(rows, f);
  }

  /** The second pass never misses a file: a row with text to write asked for the file before. */
  lemma {:induction false} NoContentDropped(rows: seq<BlobRow>, f: string)
    ensures Contents(rows, f) != "" <==> SomeCarries(rows, f)
    ensures Contents(rows, f) != "" ==> f in Names(rows)
  {
    if rows != [] {
      var n := |rows| - 1;
      NoContentDropped(rows[..n], f);
      LineCarries(rows[n], f);
      SomeCarriesLast(rows, f);
      if SomeCarries(rows, f) { CarriedIsNamed(rows, f); }
    }
  }

  lemma LastLine(rows: seq<BlobRow>, f: string, k: nat)
    requires k < |rows|
    ensures Contents(rows[..k + 1], f) == Contents(rows[..k], f) + Line(rows[k], f)
  {
    assert rows[..k + 1][..k] == rows[..k];
  }

  lemma LineReads(row: BlobRow, f: string) returns (m: nat, n: nat)
    ensures
      if Carries(row, f) then
        var s := row.m[f].s;
        && m < n <= |s| && Blank(s[..m]) && Blank(s[n..]) && !IsSpace(s[m]) && !IsSpace(s[n - 1])
        && Line(row, f) == s[m..n] + "\n"
      else Line(row, f) == ""
  {
    m, n := 0, 0;
    if Carries(row, f) {
      var s := row.m[f].s;
      TrimSpaceEmpty(s);
      m, n := TrimSpaceCuts(s);
      assert s[m..n] != "" && Value(row, f) == Text(s);
    } else {
      LineCarries(row, f);
    }
  }

  /**
   What row k adds to the file: its text without the white space at both ends and a newline, or
   nothing if it has no text but white space for the file.
   */
  lemma LineWritten(rows: seq<BlobRow>, f: string, k: nat) returns (m: nat, n: nat)
    requires k < |rows|
    ensures Contents(rows[..0], f) == ""
    ensures
      if Carries(rows[k], f) then
        var s := rows[k].m[f].s;
        && m < n <= |s| && Blank(s[..m]) && Blank(s[n..]) && !IsSpace(s[m]) && !IsSpace(s[n - 1])
        && Contents(rows[..k + 1], f) == Contents(rows[..k], f) + (s[m..n] + "\n")
      else Contents(rows[..k + 1], f) == Contents(rows[..k], f)
  {
    LastLine(rows, f, k);
    m, n := LineReads(rows[k], f);
    assert Contents(rows[..k], f) + "" == Contents(rows[..k], f);
  }

  lemma {:induction false} RestFollows(rows: seq<BlobRow>, f: string, k: nat) returns (rest: string)
    requires k < |rows|
    ensures Contents(rows, f) == Contents(rows[..k + 1], f) + rest
  {
    var n := |rows| - 1;
    if k == n {
      rest := "";
      assert rows[..k + 1] == rows;
    } else {
      var early := RestFollows(rows[..n], f, k);
      var last := Line(rows[n], f);
      assert rows[..n][..k + 1] == rows[..k + 1];
      rest := early + last;
      Reassociate(Contents(rows[..k + 1], f), early, last);
    }
  }

  /** Whatever any row wrote stands in the file, after all that earlier rows wrote. */
  lemma ContentsInOrder(rows: seq<BlobRow>, f: string, k: nat) returns (rest: string)
    requires k < |rows|
    ensures Contents(rows, f) == Contents(rows[..k], f) + Line(rows[k], f) + rest
  {
    rest := RestFollows(rows, f, k);
    LastLine(rows, f, k);
  }

  /** What the second pass makes of the files it is given. */
  function Extended(created: map<string, string>, rows: seq<BlobRow>): map<string, string> {
    map f | f in created :: created[f] + Contents(rows, f)
  }

  function WithLines(files: map<string, string>, row: BlobRow): map<string, string> {
    map f | f in files :: files[f] + Line(row, f)
  }

  lemma ExtendedOneMore(created: map<string, string>, rows: seq<BlobRow>, k: nat)
    requires k < |rows|
    ensures Extended(created, rows[..k + 1]) == WithLines(Extended(created, rows[..k]), rows[k])
  {
    assert rows[..k + 1][..k] == rows[..k];
    forall f | f in created {
      Reassociate(created[f], Contents(rows[..k], f), Line(rows[k], f));
    }
  }

  // ---------------------------------------------------------------- the two passes

  method CreateTemporaryFiles(rows: seq<BlobRow>) returns (files: map<string, string>)
    ensures files.Keys == Names(rows)
    ensures forall f :: f in files ==> files[f] == ""
  {
    files := map[];
    for k := 0 to |rows|
      invariant files.Keys == Names(rows[..k])
      invariant forall f :: f in files ==> files[f] == ""
    {
      assert rows[..k + 1][..k] == rows[..k];
      if rows[k].Blobs? {
        var m := rows[k].m;
        var todo := m.Keys;
        while todo != {}
          invariant todo <= m.Keys
          invariant files.Keys == Names(rows[..k]) + set f | f in m.Keys - todo && m[f] != Text("")
          invariant forall f :: f in files ==> files[f] == ""
        {
          var f := PickOne(todo);
          todo := todo - {f};
          if m[f] != Text("") {
            if f !in files {
              files := files[f := ""];
            }
          }
        }
      }
    }
    assert rows[..|rows|] == rows;
  }

  method ReadRow(row: BlobRow) returns (ok: bool)
    requires row.Blobs?
    ensures ok <==> Readable(row)
  {
    ok := true;
    var todo := row.m.Keys;
    while todo != {}
      invariant todo <= row.m.Keys
      invariant ok <==> forall f :: f in row.m.Keys - todo ==> !row.m[f].Other?
    {
      var f := PickOne(todo);
      todo := todo - {f};
      if row.m[f].Other? { ok := false; }
    }
  }

  method AppendRow(row: BlobRow, before: map<string, string>) returns (files: map<string, string>)
    requires row.Blobs? && Readable(row)
    ensures files == WithLines(before, row)
  {
    files := before;
    var todo := row.m.Keys;
    while todo != {}
      invariant todo <= row.m.Keys && files.Keys == before.Keys
      invariant forall f :: f in before && f in row.m && f !in todo ==> files[f] == before[f] + Line(row, f)
      invariant forall f :: f in before && (f !in row.m || f in todo) ==> files[f] == before[f]
    {
      var f := PickOne(todo);
      todo := todo - {f};
      var content := TrimSpace(if row.m[f].Text? then row.m[f].s else "");
      if content == "" {
        continue;
      }
      if f in files {
        Reassociate(files[f], content, "\n");
        files := files[f := files[f] + content];
        files := files[f := files[f] + "\n"];
      }
    }
    forall f | f in before && f !in row.m
      ensures files[f] == before[f] + Line(row, f)
    {
      assert Line(row, f) == "" by { assert TrimLeft("") == ""; }
    }
  }

  /** Appends to existing files only; a name without a file is skipped. */
  method AppendBlobRowsToFiles(rows: seq<BlobRow>, created: map<string, string>)
    returns (ok: bool, files: map<string, string>)
    ensures ok <==> forall k :: 0 <= k < |rows| ==> Readable(rows[k])
    ensures ok ==> files == Extended(created, rows)
  {
    files := created;
    NoRows(created);
    assert rows[..0] == [];
    for k := 0 to |rows|
      invariant forall j :: 0 <= j < k ==> Readable(rows[j])
      invariant files == Extended(created, rows[..k])
    {
      ExtendedOneMore(created, rows, k);
      if rows[k].NoBlobs? {
        NoLines(files, rows[k]);
        continue;
      }
      var read := ReadRow(rows[k]);
      if !read {
        return false, files;
      }
      files := AppendRow(rows[k], files);
    }
    assert rows[..|rows|] == rows;
    ok := true;
  }

  lemma NoLines(files: map<string, string>, row: BlobRow)
    requires row.NoBlobs?
    ensures WithLines(files, row) == files
  {
    assert TrimLeft("") == "";
    forall f | f in files
      ensures files[f] + Line(row, f) == files[f]
    {}
  }

  lemma NoRows(files: map<string, string>)
    ensures Extended(files, []) == files
  {
    forall f | f in files
      ensures files[f] + Contents([], f) == files[f]
    {}
  }

  /**
   Both passes.  For every order in which the maps are walked, the files are exactly the names
   with some content other than "", each with its trimmed lines in row order.
   */
  method AssembleFiles(rows: seq<BlobRow>) returns (ok: bool, files: map<string, string>)
    ensures ok <==> forall k :: 0 <= k < |rows| ==> Readable(rows[k])
    ensures ok ==> files.Keys == Names(rows) && forall f :: f in files ==> files[f] == Contents(rows, f)
  {
    var created := CreateTemporaryFiles(rows);
    ok, files := AppendBlobRowsToFiles(rows, created);
    forall f | f in created
      ensures created[f] + Contents(rows, f) == Contents(rows, f)
    {}
  }
}
