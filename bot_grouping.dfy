/**
 * The second pass of bot.py's `run_test` over the tests: each node id is
 * split on "::" into file, class (or "Sin Clase") and test name, the entry
 * gets its `short_name`, and it is appended to the nested
 * file -> class -> tests dictionary, whose keys keep first-appearance order.
 */
module BotGrouping {
  import opened Common
  import opened Text
  import opened BotResults
  import opened BotNaming

  const NoClass := "Sin Clase"

  function Parts(nodeid: string): seq<string> {
    Split(nodeid, "::")
  }

  /** `parts[0]`. */
  function FileOf(nodeid: string): string {
    Parts(nodeid)[0]
  }

  /** `parts[1] if len(parts) > 2 else "Sin Clase"`. */
  function ClassOf(nodeid: string): string {
    var p := Parts(nodeid);
    if |p| > 2 then p[1] else NoClass
  }

  /** `parts[-1]`. */
  function TestNameOf(nodeid: string): string {
    Last(Parts(nodeid))
  }

  /** A node id `file::Class::test` splits into its three pieces. */
  lemma NodeIdWithClass(file: string, cls: string, test: string)
    requires ':' !in file && ':' !in cls && ':' !in test
    ensures var id := file + "::" + cls + "::" + test;
      FileOf(id) == file && ClassOf(id) == cls && TestNameOf(id) == test
  {
    var id := file + "::" + cls + "::" + test;
    SplitWithoutSeparator(test, "::");
    SplitAfterFirst(cls, "::", test);
    assert id == file + "::" + (cls + "::" + test);
    SplitAfterFirst(file, "::", cls + "::" + test);
    assert Parts(id) == [file, cls, test];
  }

  /** A node id `file::test` has no class: it is filed under "Sin Clase". */
  lemma NodeIdWithoutClass(file: string, test: string)
    requires ':' !in file && ':' !in test
    ensures var id := file + "::" + test;
      FileOf(id) == file && ClassOf(id) == NoClass && TestNameOf(id) == test
  {
    SplitWithoutSeparator(test, "::");
    SplitAfterFirst(file, "::", test);
  }

  function FileKey(row: TestRow): string {
    FileOf(row.report.nodeid)
  }

  function ClassKey(row: TestRow): string {
    ClassOf(row.report.nodeid)
  }

  /** The entry as it is stored in its group, with `short_name` set. */
  function Named(row: TestRow): TestRow {
    row.(shortName := Some(ShortName(TestNameOf(row.report.nodeid))))
  }

  /** The file keys of the dictionary, in first-appearance order. */
  function Files(rows: seq<TestRow>): seq<string>
    decreases |rows|
  {
    if rows == [] then []
    else
      var before := Files(rows[..|rows| - 1]);
      var f := FileKey(rows[|rows| - 1]);
      if f in before then before else before + [f]
  }

  /** The class keys under file `f`, in first-appearance order. */
  function ClassesIn(rows: seq<TestRow>, f: string): seq<string>
    decreases |rows|
  {
    if rows == [] then []
    else
      var before := ClassesIn(rows[..|rows| - 1], f);
      var last := rows[|rows| - 1];
      if FileKey(last) != f || ClassKey(last) in before then before else before + [ClassKey(last)]
  }

  /** The tests of file `f`, class `c`, in document order, as stored. */
  function Bucket(rows: seq<TestRow>, f: string, c: string): (b: seq<TestRow>)
    decreases |rows|
  {
    if rows == [] then []
    else
      var before := Bucket(rows[..|rows| - 1], f, c);
      var last := rows[|rows| - 1];
      if FileKey(last) == f && ClassKey(last) == c then before + [Named(last)] else before
  }

  datatype ClassGroup = ClassGroup(name: string, tests: seq<TestRow>)
  datatype FileGroup = FileGroup(path: string, classes: seq<ClassGroup>)

  function ClassGroups(rows: seq<TestRow>, f: string, cs: seq<string>): seq<ClassGroup> {
    seq(|cs|, j requires 0 <= j < |cs| => ClassGroup(cs[j], Bucket(rows, f, cs[j])))
  }

  function GroupOf(rows: seq<TestRow>, f: string): FileGroup {
    FileGroup(f, ClassGroups(rows, f, ClassesIn(rows, f)))
  }

  /** The dictionary `grouped_tests` the loop builds, as a specification. */
  function Grouping(rows: seq<TestRow>): seq<FileGroup> {
    var fs := Files(rows);
    seq(|fs|, i requires 0 <= i < |fs| => GroupOf(rows, fs[i]))
  }

  /** The shape of the grouping: one group per file, one class group per class, holding its bucket. */
  lemma GroupingEntry(rows: seq<TestRow>, i: nat)
    requires i < |Files(rows)|
    ensures |Grouping(rows)| == |Files(rows)|
    ensures var f := Files(rows)[i]; var cs := ClassesIn(rows, f);
      && Grouping(rows)[i].path == f
      && |Grouping(rows)[i].classes| == |cs|
      && forall j :: 0 <= j < |cs| ==> Grouping(rows)[i].classes[j] == ClassGroup(cs[j], Bucket(rows, f, cs[j]))
  {
  }

  /** The position of key `f` among the groups, or their count when absent (`in` on the dict). */
  function FindFile(groups: seq<FileGroup>, f: string): (i: nat)
    ensures i <= |groups|
    ensures i < |groups| ==> groups[i].path == f
    ensures forall k :: 0 <= k < i ==> groups[k].path != f
    decreases |groups|
  {
    if groups == [] then 0
    else if groups[0].path == f then 0
    else 1 + FindFile(groups[1..], f)
  }

  /** The position of class key `c`, or the count of classes when absent. */
  function FindClass(classes: seq<ClassGroup>, c: string): (i: nat)
    ensures i <= |classes|
    ensures i < |classes| ==> classes[i].name == c
    ensures forall k :: 0 <= k < i ==> classes[k].name != c
    decreases |classes|
  {
    if classes == [] then 0
    else if classes[0].name == c then 0
    else 1 + FindClass(classes[1..], c)
  }

  lemma DropLast(rows: seq<TestRow>, row: TestRow)
    ensures (rows + [row])[..|rows|] == rows
    ensures (rows + [row])[|rows|] == row
  {
  }

  /** A file never seen has no classes. */
  lemma {:induction false} UnseenFileHasNoClasses(rows: seq<TestRow>, f: string)
    requires f !in Files(rows)
    ensures ClassesIn(rows, f) == []
    decreases |rows|
  {
    if rows != [] {
      var before := rows[..|rows| - 1];
      assert f !in Files(before);
      UnseenFileHasNoClasses(before, f);
    }
  }

  /** A class never seen under a file has an empty bucket. */
  lemma {:induction false} UnseenClassIsEmpty(rows: seq<TestRow>, f: string, c: string)
    requires c !in ClassesIn(rows, f)
    ensures Bucket(rows, f, c) == []
    decreases |rows|
  {
    if rows != [] {
      var before := rows[..|rows| - 1];
      assert c !in ClassesIn(before, f);
      UnseenClassIsEmpty(before, f, c);
    }
  }

  /** No file key is listed twice. */
  lemma {:induction false} FilesDistinct(rows: seq<TestRow>)
    ensures forall i, j :: 0 <= i < j < |Files(rows)| ==> Files(rows)[i] != Files(rows)[j]
    decreases |rows|
  {
    if rows != [] {
      FilesDistinct(rows[..|rows| - 1]);
    }
  }

  /** No class key is listed twice under one file. */
  lemma {:induction false} ClassesDistinct(rows: seq<TestRow>, f: string)
    ensures forall i, j :: 0 <= i < j < |ClassesIn(rows, f)| ==>
      ClassesIn(rows, f)[i] != ClassesIn(rows, f)[j]
    decreases |rows|
  {
    if rows != [] {
      ClassesDistinct(rows[..|rows| - 1], f);
    }
  }

  /** How one more test changes the class list of its own file. */
  lemma ClassStep(rows: seq<TestRow>, row: TestRow)
    ensures var f, c := FileKey(row), ClassKey(row);
      var cs := ClassGroups(rows, f, ClassesIn(rows, f));
      var ci := FindClass(cs, c);
      var cs' := if ci == |cs| then cs + [ClassGroup(c, [])] else cs;
      ClassGroups(rows + [row], f, ClassesIn(rows + [row], f))
        == cs'[ci := ClassGroup(c, cs'[ci].tests + [Named(row)])]
  {
    var f, c := FileKey(row), ClassKey(row);
    var rows' := rows + [row];
    DropLast(rows, row);
    var names := ClassesIn(rows, f);
    var cs := ClassGroups(rows, f, names);
    var ci := FindClass(cs, c);
    var cs' := if ci == |cs| then cs + [ClassGroup(c, [])] else cs;
    var want := cs'[ci := ClassGroup(c, cs'[ci].tests + [Named(row)])];
    var names' := ClassesIn(rows', f);
    ClassesDistinct(rows, f);
    assert c in names <==> ci < |cs| by {
      if c in names {
        var k :| 0 <= k < |names| && names[k] == c;
        assert cs[k].name == c;
      }
    }
    var got := ClassGroups(rows', f, names');
    assert |got| == |want|;
    forall j | 0 <= j < |got|
      ensures got[j] == want[j]
    {
      if j == ci {
        assert names'[j] == c;
        assert Bucket(rows', f, c) == Bucket(rows, f, c) + [Named(row)];
        if ci == |cs| {
          UnseenClassIsEmpty(rows, f, c);
        }
      } else {
        assert names'[j] == names[j];
        assert names[j] != c;
        assert Bucket(rows', f, names[j]) == Bucket(rows, f, names[j]);
      }
    }
  }

  /** How one more test changes the whole grouping: exactly the loop body's update. */
  lemma GroupingStep(rows: seq<TestRow>, row: TestRow)
    ensures var f, c := FileKey(row), ClassKey(row);
      var gs := Grouping(rows);
      var fi := FindFile(gs, f);
      var gs' := if fi == |gs| then gs + [FileGroup(f, [])] else gs;
      var cs := gs'[fi].classes;
      var ci := FindClass(cs, c);
      var cs' := if ci == |cs| then cs + [ClassGroup(c, [])] else cs;
      Grouping(rows + [row])
        == gs'[fi := gs'[fi].(classes := cs'[ci := ClassGroup(c, cs'[ci].tests + [Named(row)])])]
  {
    var f, c := FileKey(row), ClassKey(row);
    var rows' := rows + [row];
    DropLast(rows, row);
    var fs := Files(rows);
    var gs := Grouping(rows);
    var fi := FindFile(gs, f);
    var gs' := if fi == |gs| then gs + [FileGroup(f, [])] else gs;
    FilesDistinct(rows);
    assert f in fs <==> fi < |gs| by {
      if f in fs {
        var k :| 0 <= k < |fs| && fs[k] == f;
        assert gs[k].path == f;
      }
    }
    if fi == |gs| {
      UnseenFileHasNoClasses(rows, f);
      assert gs'[fi] == GroupOf(rows, f);
    }
    assert gs'[fi] == GroupOf(rows, f);
    ClassStep(rows, row);
    var cs := gs'[fi].classes;
    var ci := FindClass(cs, c);
    var cs' := if ci == |cs| then cs + [ClassGroup(c, [])] else cs;
    var want := gs'[fi := gs'[fi].(classes := cs'[ci := ClassGroup(c, cs'[ci].tests + [Named(row)])])];
    var got := Grouping(rows');
    var fs' := Files(rows');
    assert |got| == |want|;
    forall i | 0 <= i < |got|
      ensures got[i] == want[i]
    {
      if i == fi {
        assert fs'[i] == f;
      } else {
        assert fs'[i] == fs[i] && fs[i] != f;
        assert ClassesIn(rows', fs[i]) == ClassesIn(rows, fs[i]);
        var names := ClassesIn(rows, fs[i]);
        assert ClassGroups(rows', fs[i], names) == ClassGroups(rows, fs[i], names);
      }
    }
  }

  /** A bucket holds only tests of its own file and class, each with its short name set. */
  lemma {:induction false} BucketSound(rows: seq<TestRow>, f: string, c: string)
    ensures forall t :: t in Bucket(rows, f, c) ==>
      FileKey(t) == f && ClassKey(t) == c && t.shortName.Some?
    decreases |rows|
  {
    if rows != [] {
      BucketSound(rows[..|rows| - 1], f, c);
    }
  }

  /** Every entry of a bucket is one of the tests, named. */
  lemma {:induction false} BucketFromRows(rows: seq<TestRow>, f: string, c: string)
    ensures forall t :: t in Bucket(rows, f, c) ==>
      exists k :: 0 <= k < |rows| && t == Named(rows[k])
    decreases |rows|
  {
    if rows != [] {
      var before := rows[..|rows| - 1];
      BucketFromRows(before, f, c);
      forall t | t in Bucket(rows, f, c)
        ensures exists k :: 0 <= k < |rows| && t == Named(rows[k])
      {
        if t in Bucket(before, f, c) {
          var k :| 0 <= k < |before| && t == Named(before[k]);
          assert rows[k] == before[k];
        } else {
          assert t == Named(rows[|rows| - 1]);
        }
      }
    }
  }

  /** Every test is listed: its file, its class under that file, and itself in that bucket. */
  lemma {:induction false} RowFiled(rows: seq<TestRow>, k: nat)
    requires k < |rows|
    ensures FileKey(rows[k]) in Files(rows)
    ensures ClassKey(rows[k]) in ClassesIn(rows, FileKey(rows[k]))
    ensures Named(rows[k]) in Bucket(rows, FileKey(rows[k]), ClassKey(rows[k]))
    decreases |rows|
  {
    var before := rows[..|rows| - 1];
    if k < |rows| - 1 {
      RowFiled(before, k);
      assert before[k] == rows[k];
    }
  }

  /** Earlier tests keep their place: grouping a prefix gives prefixes of every key list and bucket. */
  lemma {:induction false} PrefixOrder(rows: seq<TestRow>, n: nat, f: string, c: string)
    requires n <= |rows|
    ensures Files(rows[..n]) <= Files(rows)
    ensures ClassesIn(rows[..n], f) <= ClassesIn(rows, f)
    ensures Bucket(rows[..n], f, c) <= Bucket(rows, f, c)
    decreases |rows| - n
  {
    if n < |rows| {
      PrefixOrder(rows, n + 1, f, c);
      var p := rows[..n + 1];
      assert p[..|p| - 1] == rows[..n];
    } else {
      assert rows[..n] == rows;
    }
  }

  lemma PrefixSnoc(rows: seq<TestRow>, i: nat)
    requires i < |rows|
    ensures rows[..i + 1] == rows[..i] + [rows[i]]
  {
  }

  /**
   * The grouping loop: for each test in document order, create the file
   * and class entries when missing and append the named test.
   */
  method GroupTests(rows: seq<TestRow>) returns (groups: seq<FileGroup>)
    ensures groups == Grouping(rows)
  {
    groups := [];
    var i := 0;
    while i < |rows|
      invariant 0 <= i <= |rows|
      invariant groups == Grouping(rows[..i])
    {
      var row := rows[i];
      var f, c := FileKey(row), ClassKey(row);
      PrefixSnoc(rows, i);
      GroupingStep(rows[..i], row);
      var fi := FindFile(groups, f);
      if fi == |groups| {
        groups := groups + [FileGroup(f, [])];
      }
      var classes := groups[fi].classes;
      var ci := FindClass(classes, c);
      if ci == |classes| {
        classes := classes + [ClassGroup(c, [])];
      }
      classes := classes[ci := ClassGroup(c, classes[ci].tests + [Named(row)])];
      groups := groups[fi := groups[fi].(classes := classes)];
      i := i + 1;
    }
    assert rows[..|rows|] == rows;
  }
}
