/** CommandExecutor.checkValidCommand: which command table entry an
    operator input selects. Each entry's reference is compiled into the
    pattern "^\b" + reference + "\b.*" and tested with Matcher.matches, so
    an entry is chosen when the input begins with its reference at a word
    boundary, is followed by a word boundary, and the rest of the input
    holds no line terminator (Java's '.' does not match one). References
    are taken literally: the ones in the table contain no pattern
    metacharacters. The matcher is generic over the table. Its \b is the
    ASCII one; JavaReferenceMatches adds Java's rule for non-spacing marks,
    and the lemmas below prove the two differ only where such a mark
    follows a reference. */
module CommandMatch {
  import opened Text
  import opened Const

  /** input matches ^\b reference \b.* as a whole. */
  predicate ReferenceMatches(reference: string, input: string) {
    && |reference| <= |input|
    && input[..|reference|] == reference
    && BoundaryAt(input, 0)
    && BoundaryAt(input, |reference|)
    && forall i :: |reference| <= i < |input| ==> !IsLineTerminator(input[i])
  }

  /** The first-match search: the id of the first entry whose reference
      matches, or 0 when none does. */
  function FirstMatch(table: seq<Command>, input: string): int
    decreases |table|
  {
    if table == [] then 0
    else if ReferenceMatches(table[0].reference, input) then table[0].id
    else FirstMatch(table[1..], input)
  }

  /** checkValidCommand: scans the table in order and returns the id of the
      first entry that matches, 0 if none does. */
  method CheckValidCommand(table: seq<Command>, input: string) returns (id: int)
    ensures id == FirstMatch(table, input)
    ensures forall k :: 0 <= k < |table| && ReferenceMatches(table[k].reference, input) ==>
              exists j :: 0 <= j <= k && ReferenceMatches(table[j].reference, input) && id == table[j].id
  {
    var i := 0;
    while i < |table|
      invariant 0 <= i <= |table|
      invariant FirstMatch(table[i..], input) == FirstMatch(table, input)
      invariant forall k :: 0 <= k < i ==> !ReferenceMatches(table[k].reference, input)
    {
      if ReferenceMatches(table[i].reference, input) {
        return table[i].id;
      }
      assert table[i..][1..] == table[i + 1..];
      i := i + 1;
    }
    return 0;
  }

  /** FirstMatch characterised without recursion: a non-zero result is the
      id of a matching entry with no matching entry before it; and when the
      ids are non-zero, 0 comes back exactly when no entry matches. */
  lemma {:induction false} FirstMatchSpec(table: seq<Command>, input: string)
    ensures FirstMatch(table, input) != 0 ==>
              exists k :: 0 <= k < |table| && ReferenceMatches(table[k].reference, input)
                && FirstMatch(table, input) == table[k].id
                && forall j :: 0 <= j < k ==> !ReferenceMatches(table[j].reference, input)
    ensures (forall k :: 0 <= k < |table| ==> table[k].id != 0) ==>
              (FirstMatch(table, input) == 0 <==>
                 forall k :: 0 <= k < |table| ==> !ReferenceMatches(table[k].reference, input))
    decreases |table|
  {
    if table != [] && !ReferenceMatches(table[0].reference, input) {
      FirstMatchSpec(table[1..], input);
      if FirstMatch(table, input) != 0 {
        var k :| 0 <= k < |table[1..]| && ReferenceMatches(table[1..][k].reference, input)
          && FirstMatch(table[1..], input) == table[1..][k].id
          && forall j :: 0 <= j < k ==> !ReferenceMatches(table[1..][j].reference, input);
        assert table[k + 1] == table[1..][k];
        forall j | 0 <= j < k + 1 ensures !ReferenceMatches(table[j].reference, input) {
          if j > 0 { assert table[j] == table[1..][j - 1]; }
        }
      }
      if forall k :: 0 <= k < |table| ==> table[k].id != 0 {
        assert forall k :: 0 <= k < |table[1..]| ==> table[1..][k] == table[k + 1];
      }
    }
  }

  /** An input made only of whitespace (or any input that does not begin
      with a word character) selects no entry, whatever the table holds. */
  lemma {:induction false} NonWordStartMatchesNothing(table: seq<Command>, input: string)
    requires |input| > 0 && !IsWordChar(input[0])
    ensures FirstMatch(table, input) == 0
    decreases |table|
  {
    if table != [] {
      assert !BoundaryAt(input, 0);
      NonWordStartMatchesNothing(table[1..], input);
    }
  }

  /** When every entry of the table that matches carries the same id x and
      some entry matches, the search returns x; when none matches, 0. So
      the table order does not matter once matches are unique. */
  lemma {:induction false} FirstMatchUnique(table: seq<Command>, input: string, x: int)
    requires forall c :: c in table && ReferenceMatches(c.reference, input) ==> c.id == x
    ensures (exists c :: c in table && ReferenceMatches(c.reference, input)) ==> FirstMatch(table, input) == x
    ensures (forall c :: c in table ==> !ReferenceMatches(c.reference, input)) ==> FirstMatch(table, input) == 0
    decreases |table|
  {
    if table != [] {
      assert forall c :: c in table[1..] ==> c in table;
      FirstMatchUnique(table[1..], input, x);
      if !ReferenceMatches(table[0].reference, input) {
        forall c | c in table && ReferenceMatches(c.reference, input) ensures c in table[1..] {
          var k :| 0 <= k < |table| && table[k] == c;
          assert k != 0;
          assert table[1..][k - 1] == c;
        }
      }
    }
  }

  /** No reference of the shipped table, followed by a word boundary,
      begins another: at most one entry matches any input. */
  lemma {:induction false} CommandsMatchAtMostOnce(input: string, i: nat, j: nat)
    requires i < j < |COMMANDS|
    ensures !(ReferenceMatches(COMMANDS[i].reference, input) && ReferenceMatches(COMMANDS[j].reference, input))
  {
    CommandsShape();
    var a, b := COMMANDS[i].reference, COMMANDS[j].reference;
    if ReferenceMatches(a, input) {
      assert input[..|a|] == a;
      if i == 0 {
        assert input[2] == 'a';
        if j == 1 {
          assert b[2] == 'o';
        } else {
          assert input[0] == 's' && b[0] == 'e';
        }
      } else {
        assert input[0] == 's' && b[0] == 'e';
      }
      assert |b| > |input| || input[..|b|] != b;
    }
  }

  /** The shipped table answers the same for any reordering of its entries
      (indeed for any table with the same entries). */
  lemma {:induction false} CommandsOrderIrrelevant(table: seq<Command>, input: string)
    requires forall c :: c in table <==> c in COMMANDS
    ensures FirstMatch(table, input) == FirstMatch(COMMANDS, input)
  {
    if k :| 0 <= k < |COMMANDS| && ReferenceMatches(COMMANDS[k].reference, input) {
      forall c | c in COMMANDS && ReferenceMatches(c.reference, input) ensures c.id == COMMANDS[k].id {
        var m :| 0 <= m < |COMMANDS| && COMMANDS[m] == c;
        if m < k { CommandsMatchAtMostOnce(input, m, k); }
        if k < m { CommandsMatchAtMostOnce(input, k, m); }
      }
      FirstMatchUnique(table, input, COMMANDS[k].id);
      FirstMatchUnique(COMMANDS, input, COMMANDS[k].id);
    } else {
      FirstMatchUnique(table, input, 0);
      FirstMatchUnique(COMMANDS, input, 0);
    }
  }

  /** Worked case on the shipped table: the whole text of a command
      selects it. */
  lemma StartServerSelected()
    ensures FirstMatch(COMMANDS, "start server") == 1
  {
    CommandsShape();
    assert ReferenceMatches("start server", "start server");
  }

  /** The same pattern under Java's full \b, which also lets a
      non-spacing mark continue the word before it. */
  predicate JavaReferenceMatches(u: UnicodeClasses, reference: string, input: string) {
    && |reference| <= |input|
    && input[..|reference|] == reference
    && JavaBoundaryAt(u, input, 0)
    && JavaBoundaryAt(u, input, |reference|)
    && forall i :: |reference| <= i < |input| ==> !IsLineTerminator(input[i])
  }

  /** The first-match search under Java's full \b. */
  function JavaFirstMatch(u: UnicodeClasses, table: seq<Command>, input: string): int
    decreases |table|
  {
    if table == [] then 0
    else if JavaReferenceMatches(u, table[0].reference, input) then table[0].id
    else JavaFirstMatch(u, table[1..], input)
  }

  /** A reference that begins and ends with an ASCII letter or digit, as
      every reference of the shipped table does. */
  predicate AlphanumericEnds(reference: string) {
    |reference| > 0 && IsAsciiLetterOrDigit(reference[0]) && IsAsciiLetterOrDigit(reference[|reference| - 1])
  }

  /** For such a reference, Java's match and the model's differ exactly
      when the reference is followed by a non-spacing mark: Java refuses
      the input there and the model accepts it. */
  lemma JavaReferenceMatchesIff(u: UnicodeClasses, reference: string, input: string)
    requires Consistent(u) && AlphanumericEnds(reference)
    ensures JavaReferenceMatches(u, reference, input) <==>
              ReferenceMatches(reference, input) && !(|reference| < |input| && u.isNonSpacingMark(input[|reference|]))
  {
    var n := |reference|;
    if n <= |input| && input[..n] == reference {
      assert input[0] == reference[0] && input[n - 1] == reference[n - 1];
      if n < |input| && u.isNonSpacingMark(input[n]) {
        MarkContinuesWord(u, input, n);
      } else {
        BoundaryAgrees(u, input, n);
      }
      BoundaryAgrees(u, input, 0);
    }
  }

  /** On input holding no non-spacing mark, the model's search answers as
      Java's does, for any table whose references begin and end with ASCII
      letters or digits. */
  lemma {:induction false} JavaFirstMatchAgrees(u: UnicodeClasses, table: seq<Command>, input: string)
    requires Consistent(u)
    requires forall k :: 0 <= k < |table| ==> AlphanumericEnds(table[k].reference)
    requires forall i :: 0 <= i < |input| ==> !u.isNonSpacingMark(input[i])
    ensures JavaFirstMatch(u, table, input) == FirstMatch(table, input)
    decreases |table|
  {
    if table != [] {
      JavaReferenceMatchesIff(u, table[0].reference, input);
      JavaFirstMatchAgrees(u, table[1..], input);
    }
  }

  /** The shipped references all begin and end with ASCII letters. */
  lemma CommandsAlphanumericEnds()
    ensures forall k :: 0 <= k < |COMMANDS| ==> AlphanumericEnds(COMMANDS[k].reference)
  {
    CommandsShape();
    assert AlphanumericEnds("start server") && AlphanumericEnds("stop server") && AlphanumericEnds("enroll");
  }

  /** Where the two differ on the shipped table: "enroll" followed by a
      combining acute accent (U+0301) selects enroll in the model, while
      Java's \b finds no boundary after "enroll" and selects nothing. */
  lemma CombiningMarkDiffers(u: UnicodeClasses)
    requires Consistent(u) && u.isNonSpacingMark('\U{0301}')
    ensures FirstMatch(COMMANDS, "enroll\U{0301}") == 3
    ensures JavaFirstMatch(u, COMMANDS, "enroll\U{0301}") == 0
  {
    CommandsShape();
    var e := "enroll\U{0301}";
    assert e[..6] == "enroll" && |e| == 7;
    assert !ReferenceMatches("start server", e) && !ReferenceMatches("stop server", e);
    assert ReferenceMatches("enroll", e);
    assert COMMANDS[1..][1..] == [ENROLL];
    assert FirstMatch([ENROLL], e) == 3;
    CommandsAlphanumericEnds();
    JavaReferenceMatchesIff(u, "enroll", e);
    assert !JavaReferenceMatches(u, "start server", e) && !JavaReferenceMatches(u, "stop server", e);
    assert JavaFirstMatch(u, [ENROLL], e) == 0;
  }

  /** Worked case on the shipped table: a command followed by more words
      selects it. */
  lemma StopServerSelected()
    ensures FirstMatch(COMMANDS, "stop server now") == 2
  {
    CommandsShape();
    assert "stop server now"[..11] == "stop server";
    assert "stop server now"[..12][2] == 'o';
    assert ReferenceMatches("stop server", "stop server now");
  }

  /** Worked case on the shipped table: a later entry is reached when the
      earlier ones do not match. */
  lemma EnrollSelected()
    ensures FirstMatch(COMMANDS, "enroll AbCd1234") == 3
  {
    CommandsShape();
    var e := "enroll AbCd1234";
    assert e[..6] == "enroll" && e[..12][0] == 'e' && e[..11][0] == 'e';
    assert !ReferenceMatches("start server", e) && !ReferenceMatches("stop server", e);
    assert ReferenceMatches("enroll", e);
    assert COMMANDS[1..][1..] == [ENROLL];
    assert FirstMatch([ENROLL], e) == 3;
  }

  /** Worked cases on the shipped table: inputs that select nothing. */
  lemma CommandsReject()
    ensures FirstMatch(COMMANDS, "enrollment") == 0
    ensures FirstMatch(COMMANDS, " enroll x") == 0
    ensures FirstMatch(COMMANDS, "clients info") == 0
  {
    CommandsShape();
    assert COMMANDS[1..][1..] == [ENROLL];
    assert [ENROLL][1..] == [];
    var m := "enrollment";
    assert !BoundaryAt(m, 6);
    assert !ReferenceMatches("enroll", m);
    assert FirstMatch([ENROLL], m) == 0;
    var c := "clients info";
    assert c[..12][0] == 'c' && c[..11][0] == 'c' && c[..6][0] == 'c';
    assert !ReferenceMatches("start server", c) && !ReferenceMatches("stop server", c);
    assert !ReferenceMatches("enroll", c);
    assert FirstMatch([ENROLL], c) == 0;
    assert " enroll x"[0] == ' ';
    NonWordStartMatchesNothing(COMMANDS, " enroll x");
  }
}
