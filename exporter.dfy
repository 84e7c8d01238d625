/** Exporter.buildAttendanceCSV: picks the first file name not yet taken in
    the working directory and writes the data lines to it. The directory is
    a map from file name to content; createNewFile's atomic
    create-if-absent is a method on it. */
module Exporter {
  import opened Text

  /** The name tried at step k: csv_filename + ".csv" first, then
      String.format("%s_(%d).csv", csv_filename, k). */
  function Candidate(base: string, k: nat): string {
    if k == 0 then base + ".csv" else base + "_(" + NatToString(k) + ").csv"
  }

  /** Different steps try different names, so the search never retries a
      name. */
  lemma CandidateInjective(base: string, j: nat, k: nat)
    requires Candidate(base, j) == Candidate(base, k)
    ensures j == k
  {
    var cj, ck := Candidate(base, j), Candidate(base, k);
    var n := |base|;
    if j == 0 || k == 0 {
      assert cj[n] == (if j == 0 then '.' else '_');
      assert ck[n] == (if k == 0 then '.' else '_');
    } else {
      var a, b := NatToString(j), NatToString(k);
      assert cj == base + "_(" + a + ").csv";
      assert ck == base + "_(" + b + ").csv";
      assert forall i :: 0 <= i < |a| ==> cj[n + 2 + i] == a[i];
      assert forall i :: 0 <= i < |b| ==> ck[n + 2 + i] == b[i];
      assert cj[n + 2 + |a|] == ')' && ck[n + 2 + |b|] == ')';
      assert |a| == |b|;
      assert a == cj[n + 2..n + 2 + |a|] && b == ck[n + 2..n + 2 + |b|];
    }
  }

  /** The names tried before step n. */
  function Tried(base: string, n: nat): set<string> {
    set j | 0 <= j < n :: Candidate(base, j)
  }

  lemma {:induction false} TriedSize(base: string, n: nat)
    ensures |Tried(base, n)| == n
    ensures Tried(base, n + 1) == Tried(base, n) + {Candidate(base, n)}
    ensures Candidate(base, n) !in Tried(base, n)
  {
    assert Tried(base, n + 1) == Tried(base, n) + {Candidate(base, n)};
    if Candidate(base, n) in Tried(base, n) {
      var j :| 0 <= j < n && Candidate(base, j) == Candidate(base, n);
      CandidateInjective(base, j, n);
    }
    if n > 0 {
      TriedSize(base, n - 1);
    } else {
      assert Tried(base, 0) == {};
    }
  }

  /** When the first n + 1 names are all taken, the directory holds at
      least n + 1 files, so the search ends. */
  lemma TakenBound(base: string, n: nat, taken: set<string>)
    requires forall j :: 0 <= j <= n ==> Candidate(base, j) in taken
    ensures n + 1 <= |taken|
  {
    TriedSize(base, n + 1);
    assert Tried(base, n + 1) <= taken;
    SubsetSize(Tried(base, n + 1), taken);
  }

  /** What the writer leaves in the file: a line separator before each
      data line. */
  function Content(data: seq<string>): string {
    if data == [] then "" else Content(data[..|data| - 1]) + "\n" + data[|data| - 1]
  }

  /** The index of the last c in s, or -1. */
  function FindLast(s: string, c: char): (i: int)
    ensures -1 <= i < |s|
    ensures i >= 0 ==> s[i] == c
    ensures forall k :: i < k < |s| ==> s[k] != c
  {
    if s == [] then -1 else if s[|s| - 1] == c then |s| - 1 else FindLast(s[..|s| - 1], c)
  }

  /** Reads a file written this way back into its lines. */
  function Lines(s: string): seq<string>
    decreases |s|
  {
    var i := FindLast(s, '\n');
    if i < 0 then [] else Lines(s[..i]) + [s[i + 1..]]
  }

  /** The last line break of p + "\n" + last is the one before last, when
      last holds none. */
  lemma LastBreak(p: string, last: string)
    requires '\n' !in last
    ensures var s := p + "\n" + last;
            FindLast(s, '\n') == |p| && s[..|p|] == p && s[|p| + 1..] == last
  {
    var s := p + "\n" + last;
    assert s[|p|] == '\n';
    assert forall k :: |p| < k < |s| ==> s[k] == last[k - |p| - 1];
    assert s[..|p|] == p && s[|p| + 1..] == last;
  }

  /** The file holds the data lines in order, and they can be read back
      when none holds a line break; empty data gives an empty file. */
  lemma {:induction false} ContentLines(data: seq<string>)
    requires forall k :: 0 <= k < |data| ==> '\n' !in data[k]
    ensures Lines(Content(data)) == data
    ensures data == [] <==> Content(data) == ""
    decreases |data|
  {
    if data != [] {
      var init, last := data[..|data| - 1], data[|data| - 1];
      assert Content(data) == Content(init) + "\n" + last;
      assert forall k :: 0 <= k < |init| ==> init[k] == data[k];
      LastBreak(Content(init), last);
      ContentLines(init);
    }
  }

  class Directory {
    var files: map<string, string>

    constructor(existing: map<string, string>)
      ensures files == existing
    {
      files := existing;
    }

    /** File.createNewFile: creates an empty file and answers true when the
        name is free, answers false and changes nothing otherwise. */
    method CreateNewFile(name: string) returns (created: bool)
      modifies this
      ensures created <==> name !in old(files)
      ensures created ==> files == old(files)[name := ""]
      ensures !created ==> files == old(files)
    {
      created := name !in files;
      if created {
        files := files[name := ""];
      }
    }

    /** buildAttendanceCSV: the chosen name is the first candidate that did
        not exist; every earlier candidate did; the new file holds the data
        lines; no other file changes. */
    method BuildAttendanceCsv(csvFilename: string, data: seq<string>)
      returns (chosen: string, duplicateIndex: nat)
      modifies this
      ensures chosen == Candidate(csvFilename, duplicateIndex)
      ensures chosen !in old(files)
      ensures forall j :: 0 <= j < duplicateIndex ==> Candidate(csvFilename, j) in old(files)
      ensures files == old(files)[chosen := Content(data)]
    {
      var before := files;
      duplicateIndex := 0;
      chosen := Candidate(csvFilename, 0);
      var isFileCreated := CreateNewFile(chosen);
      while !isFileCreated
        invariant chosen == Candidate(csvFilename, duplicateIndex)
        invariant isFileCreated ==> chosen !in before && files == before[chosen := ""]
        invariant !isFileCreated ==> chosen in before && files == before
        invariant forall j :: 0 <= j < duplicateIndex ==> Candidate(csvFilename, j) in before
        decreases |before.Keys| - duplicateIndex
      {
        TakenBound(csvFilename, duplicateIndex, before.Keys);
        duplicateIndex := duplicateIndex + 1;
        chosen := Candidate(csvFilename, duplicateIndex);
        isFileCreated := CreateNewFile(chosen);
      }
      var content := WriteLines(data);
      files := files[chosen := content];
    }
  }

  /** The writer loop: newLine, then the line, for each line in order. */
  method WriteLines(data: seq<string>) returns (content: string)
    ensures content == Content(data)
  {
    content := "";
    for i := 0 to |data|
      invariant content == Content(data[..i])
    {
      assert data[..i + 1][..i] == data[..i];
      content := content + "\n" + data[i];
    }
    assert data[..|data|] == data;
  }

  lemma SubsetSize<T>(a: set<T>, b: set<T>)
    requires a <= b
    ensures |a| <= |b|
  {
    assert b == a + (b - a);
  }
}
