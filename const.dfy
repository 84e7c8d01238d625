/** Const: the client-name alphabet and the operator command table. The
    window sizes, titles, icon and stylesheet constants are presentation
    and are not modelled. */
module Const {

  const UPPER: string := "ABCDEFGHIJKLMNOPQRSTUVWXYZ"
  const LOWER: string := "abcdefghijklmnopqrstuvwxyz"
  const DIGITS: string := "0123456789"

  /** The alphabet generated client names are drawn from: the 62-character
      literal of the source, written as its three blocks. */
  const CHARSET: string := UPPER + LOWER + DIGITS

  /** One Const.Commands constant: id, description, syntax and the literal
      reference the router matches input against. The Java getters return
      these fields. */
  datatype Command = Command(id: int, description: string, syntax: string, reference: string)

  const START: Command := Command(1, "Starts the server.", "start server", "start server")
  const STOP: Command := Command(2, "Stops the server.", "stop server", "stop server")
  const ENROLL: Command := Command(
    3,
    "Register a fingerprint on a selected fingerprint client. Id must be greater than 0.",
    "enroll <client-name>",
    "enroll")

  /** Const.Commands.values(), in declaration order. */
  const COMMANDS: seq<Command> := [START, STOP, ENROLL]

  predicate IsAlphanumeric(c: char) {
    'A' <= c <= 'Z' || 'a' <= c <= 'z' || '0' <= c <= '9'
  }

  /** The character at position i of the layout A-Z, a-z, 0-9. */
  function LayoutChar(i: nat): (c: char)
    requires i < 62
    ensures IsAlphanumeric(c)
  {
    if i < 26 then ('A' as int + i) as char
    else if i < 52 then ('a' as int + (i - 26)) as char
    else ('0' as int + (i - 52)) as char
  }

  /** From position k on, s holds consecutive characters counting up
      from `first` at position 0. */
  predicate CountsUpFrom(s: string, first: char, k: nat)
    decreases |s| - k
  {
    k >= |s| || (s[k] as int == first as int + k && CountsUpFrom(s, first, k + 1))
  }

  lemma {:induction false} CountsUpAt(s: string, first: char, k: nat, i: nat)
    requires CountsUpFrom(s, first, k) && k <= i < |s|
    ensures s[i] as int == first as int + i
    decreases i - k
  {
    if k < i {
      CountsUpAt(s, first, k + 1, i);
    }
  }

  lemma UpperCounts()
    ensures CountsUpFrom(UPPER, 'A', 0)
  {
    assert CountsUpFrom(UPPER, 'A', 24);
    assert CountsUpFrom(UPPER, 'A', 21);
    assert CountsUpFrom(UPPER, 'A', 18);
    assert CountsUpFrom(UPPER, 'A', 15);
    assert CountsUpFrom(UPPER, 'A', 12);
    assert CountsUpFrom(UPPER, 'A', 9);
    assert CountsUpFrom(UPPER, 'A', 6);
    assert CountsUpFrom(UPPER, 'A', 3);
  }

  lemma LowerCounts()
    ensures CountsUpFrom(LOWER, 'a', 0)
  {
    assert CountsUpFrom(LOWER, 'a', 24);
    assert CountsUpFrom(LOWER, 'a', 21);
    assert CountsUpFrom(LOWER, 'a', 18);
    assert CountsUpFrom(LOWER, 'a', 15);
    assert CountsUpFrom(LOWER, 'a', 12);
    assert CountsUpFrom(LOWER, 'a', 9);
    assert CountsUpFrom(LOWER, 'a', 6);
    assert CountsUpFrom(LOWER, 'a', 3);
  }

  lemma DigitsCount()
    ensures CountsUpFrom(DIGITS, '0', 0)
  {
    assert CountsUpFrom(DIGITS, '0', 5);
  }

  /** CHARSET is A-Z, then a-z, then 0-9. */
  lemma CharsetLayout()
    ensures |CHARSET| == 62
    ensures forall i :: 0 <= i < 62 ==> CHARSET[i] == LayoutChar(i)
  {
    UpperCounts();
    LowerCounts();
    DigitsCount();
    forall i | 0 <= i < 62 ensures CHARSET[i] == LayoutChar(i) {
      if i < 26 {
        CountsUpAt(UPPER, 'A', 0, i);
        assert CHARSET[i] == UPPER[i];
      } else if i < 52 {
        CountsUpAt(LOWER, 'a', 0, i - 26);
        assert CHARSET[i] == LOWER[i - 26];
      } else {
        CountsUpAt(DIGITS, '0', 0, i - 52);
        assert CHARSET[i] == DIGITS[i - 52];
      }
    }
  }

  /** The position of a letter or digit in CHARSET. */
  function CharsetIndex(c: char): (j: nat)
    requires IsAlphanumeric(c)
    ensures j < |CHARSET| && CHARSET[j] == c
  {
    CharsetLayout();
    if 'A' <= c <= 'Z' then c as int - 'A' as int
    else if 'a' <= c <= 'z' then 26 + (c as int - 'a' as int)
    else 52 + (c as int - '0' as int)
  }

  /** CHARSET has 62 characters, each occurring once, and they are exactly
      the ASCII letters and digits. */
  lemma {:induction false} CharsetShape()
    ensures |CHARSET| == 62
    ensures forall i, j :: 0 <= i < j < |CHARSET| ==> CHARSET[i] != CHARSET[j]
    ensures forall c :: c in CHARSET <==> IsAlphanumeric(c)
  {
    CharsetLayout();
    forall c | IsAlphanumeric(c) ensures c in CHARSET {
      var j := CharsetIndex(c);
    }
  }

  /** The table is START, STOP, ENROLL with ids 1, 2, 3, and each reference
      begins its own syntax string. */
  lemma CommandsShape()
    ensures |COMMANDS| == 3
    ensures COMMANDS[0].id == 1 && COMMANDS[1].id == 2 && COMMANDS[2].id == 3
    ensures COMMANDS[0].reference == "start server"
    ensures COMMANDS[1].reference == "stop server"
    ensures COMMANDS[2].reference == "enroll"
    ensures forall i :: 0 <= i < |COMMANDS| ==> COMMANDS[i].reference <= COMMANDS[i].syntax
  {
  }
}
