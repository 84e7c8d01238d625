/** LoginWindow: the host and port text checks, the Enter button rule, and
    the Enter and close handlers. The layout is not modelled; each text
    field listener is a method that stores the new text, recomputes its
    flag and then runs changeButtonState. */
module Login {
  import opened Text

  // ----- host -----

  /** One octet of the host pattern, 25[0-5]|(2[0-4]|1\d|[1-9]|)\d, as
      written: its alternatives one by one. */
  predicate OctetAlt(t: string) {
    || (|t| == 3 && t[0] == '2' && t[1] == '5' && '0' <= t[2] <= '5')
    || (|t| == 3 && t[0] == '2' && '0' <= t[1] <= '4' && IsDigit(t[2]))
    || (|t| == 3 && t[0] == '1' && IsDigit(t[1]) && IsDigit(t[2]))
    || (|t| == 2 && '1' <= t[0] <= '9' && IsDigit(t[1]))
    || (|t| == 1 && IsDigit(t[0]))
  }

  /** A decimal octet: one to three digits, no leading zero, at most 255. */
  predicate IsOctetText(t: string) {
    1 <= |t| <= 3 && AllDigits(t) && (|t| == 1 || t[0] != '0') && DigitsValue(t) <= 255
  }

  lemma OctetAltIsOctet(t: string)
    ensures OctetAlt(t) <==> IsOctetText(t)
  {
    if 1 <= |t| <= 3 && AllDigits(t) {
      assert t[..1][..0] == [];
      assert DigitsValue(t[..1]) == DigitValue(t[0]);
      if |t| >= 2 {
        assert t[..2][..1] == t[..1];
        assert DigitsValue(t[..2]) == 10 * DigitValue(t[0]) + DigitValue(t[1]);
      }
      if |t| == 3 {
        assert DigitsValue(t) == 100 * DigitValue(t[0]) + 10 * DigitValue(t[1]) + DigitValue(t[2]);
      } else if |t| == 2 {
        assert t[..2] == t;
      } else {
        assert t[..1] == t;
      }
    }
  }

  /** n more repetitions of (octet)\.?\b from position i, then the end of
      the text: the host pattern ^((octet)\.?\b){4}$ with every choice the
      matcher may backtrack over (the octet's length, whether the dot is
      taken). */
  predicate HostReps(s: string, i: nat, n: nat)
    decreases n, 1
  {
    if n == 0 then i == |s|
    else OctetStep(s, i, 1, n) || OctetStep(s, i, 2, n) || OctetStep(s, i, 3, n)
  }

  /** One repetition taking an octet of length L at i: then either a dot
      and a boundary (a word character must follow the dot) or no dot and
      a boundary (no word character may follow the octet). */
  predicate OctetStep(s: string, i: nat, L: nat, n: nat)
    requires n >= 1
    decreases n, 0
  {
    && i + L <= |s| && OctetAlt(s[i..i + L])
    && ( || (i + L < |s| && s[i + L] == '.' && WordAt(s, i + L + 1) && HostReps(s, i + L + 1, n - 1))
         || (BoundaryAt(s, i + L) && HostReps(s, i + L, n - 1)))
  }

  /** The host listener's test: the text matches the host pattern. */
  predicate IsHostText(s: string) {
    HostReps(s, 0, 4)
  }

  /** n octets separated by single dots, and nothing else. */
  predicate DottedOctets(s: string, n: nat)
    decreases n
  {
    if n <= 1 then n == 1 && IsOctetText(s)
    else exists k :: 0 <= k < |s| && s[k] == '.' && IsOctetText(s[..k]) && DottedOctets(s[k + 1..], n - 1)
  }

  lemma {:induction false} HostRepsStartsWithDigit(s: string, i: nat, n: nat)
    ensures n >= 1 && HostReps(s, i, n) ==> i < |s| && IsDigit(s[i])
  {
    if n >= 1 && HostReps(s, i, n) {
      var L := if OctetStep(s, i, 1, n) then 1 else if OctetStep(s, i, 2, n) then 2 else 3;
      assert OctetStep(s, i, L, n);
      assert s[i..i + L][0] == s[i];
    }
  }

  lemma {:induction false} DottedStartsWithDigit(s: string, n: nat)
    ensures DottedOctets(s, n) ==> |s| > 0 && IsDigit(s[0])
  {
    if DottedOctets(s, n) && n > 1 {
      var k :| 0 <= k < |s| && s[k] == '.' && IsOctetText(s[..k]) && DottedOctets(s[k + 1..], n - 1);
      assert s[..k][0] == s[0];
    }
  }

  /** The pattern as written accepts only texts made of n dotted octets:
      the optional dot followed by \b forces a dot between octets (two
      digits never have a boundary between them) and forbids one at the
      end. */
  lemma {:induction false} HostRepsOnlyDotted(s: string, i: nat, n: nat)
    requires i <= |s| && n >= 1
    ensures HostReps(s, i, n) ==> DottedOctets(s[i..], n)
    decreases n
  {
    if HostReps(s, i, n) {
      var L := if OctetStep(s, i, 1, n) then 1 else if OctetStep(s, i, 2, n) then 2 else 3;
      assert OctetStep(s, i, L, n);
      var j := i + L;
      OctetAltIsOctet(s[i..j]);
      HostRepsStartsWithDigit(s, j, n - 1);
      if n == 1 {
        assert s[i..] == s[i..j];
      } else {
        HostRepsOnlyDotted(s, j + 1, n - 1);
        assert s[i..][L] == '.' && s[i..][..L] == s[i..j] && s[i..][L + 1..] == s[j + 1..];
      }
    }
  }

  /** ... and it accepts every such text. */
  lemma {:induction false} DottedHostReps(s: string, i: nat, n: nat)
    requires i <= |s| && n >= 1
    ensures DottedOctets(s[i..], n) ==> HostReps(s, i, n)
    decreases n
  {
    if DottedOctets(s[i..], n) {
      if n == 1 {
        LastOctetStep(s, i);
      } else {
        var k := DottedSplit(s[i..], n);
        assert s[i..][k + 1..] == s[i + k + 1..];
        DottedHostReps(s, i + k + 1, n - 1);
        DottedOctetStep(s, i, k, n);
      }
    }
  }

  lemma DottedSplit(t: string, n: nat) returns (k: nat)
    requires n >= 2 && DottedOctets(t, n)
    ensures k < |t| && t[k] == '.' && IsOctetText(t[..k]) && DottedOctets(t[k + 1..], n - 1)
  {
    k :| 0 <= k < |t| && t[k] == '.' && IsOctetText(t[..k]) && DottedOctets(t[k + 1..], n - 1);
  }

  /** An octet running to the end of the text is the last repetition. */
  lemma LastOctetStep(s: string, i: nat)
    requires i <= |s| && IsOctetText(s[i..])
    ensures HostReps(s, i, 1)
  {
    var L := |s| - i;
    OctetAltIsOctet(s[i..]);
    assert s[i..i + L] == s[i..];
    assert IsDigit(s[i..][L - 1]);
    assert BoundaryAt(s, i + L);
    assert OctetStep(s, i, L, 1);
  }

  /** An octet of length k at i, a dot, and a matching rest make one
      repetition with the dot taken. */
  lemma DottedOctetStep(s: string, i: nat, k: nat, n: nat)
    requires n >= 2 && i + k < |s| && s[i + k] == '.' && IsOctetText(s[i..][..k])
    requires DottedOctets(s[i + k + 1..], n - 1) && HostReps(s, i + k + 1, n - 1)
    ensures HostReps(s, i, n)
  {
    assert s[i..][..k] == s[i..i + k];
    OctetAltIsOctet(s[i..i + k]);
    DottedStartsWithDigit(s[i + k + 1..], n - 1);
    assert s[i + k + 1..][0] == s[i + k + 1];
    assert OctetStep(s, i, k, n);
  }

  /** The host is valid exactly when it is four dotted octets. */
  lemma HostIsDottedQuad(s: string)
    ensures IsHostText(s) <==> DottedOctets(s, 4)
  {
    HostRepsOnlyDotted(s, 0, 4);
    DottedHostReps(s, 0, 4);
    assert s[0..] == s;
  }

  /** The default host passes. */
  lemma DefaultHostAccepted()
    ensures IsHostText("0.0.0.0")
  {
    var z := "0.0.0.0";
    assert HostReps(z, 7, 0);
    assert OctetStep(z, 6, 1, 1);
    assert OctetStep(z, 4, 1, 2);
    assert OctetStep(z, 2, 1, 3);
    assert OctetStep(z, 0, 1, 4);
  }

  /** A trailing dot is refused. */
  lemma TrailingDotRejected()
    ensures !IsHostText("1.2.3.4.")
  {
    var d := "1.2.3.4.";
    assert !HostReps(d, 7, 1) && !HostReps(d, 8, 1);
    assert !HostReps(d, 6, 1);
    assert !HostReps(d, 4, 2);
    assert !HostReps(d, 2, 3);
  }

  /** A leading zero is refused. */
  lemma LeadingZeroRejected()
    ensures !IsHostText("10.0.0.01")
  {
    var z := "10.0.0.01";
    assert !HostReps(z, 7, 1);
    assert !HostReps(z, 5, 2);
    assert !HostReps(z, 3, 3);
  }

  /** An octet above 255 is refused. */
  lemma OctetOver255Rejected()
    ensures !IsHostText("256.1.1.1")
  {
    var o := "256.1.1.1";
    assert !OctetAlt(o[0..3]);
    assert !BoundaryAt(o, 1) && !BoundaryAt(o, 2);
  }

  // ----- port -----

  /** The port pattern as written: five characters taken by one of
      49[1-9][5-9][2-9], 5[0-9]{4}, 6[0-4][0-9]{3}, 65[0-4][0-9]{2},
      655[0-2][0-9] or 6553[0-5]. */
  predicate IsPortText(s: string) {
    && |s| == 5
    && ( || (s[0] == '4' && s[1] == '9' && '1' <= s[2] <= '9' && '5' <= s[3] <= '9' && '2' <= s[4] <= '9')
         || (s[0] == '5' && IsDigit(s[1]) && IsDigit(s[2]) && IsDigit(s[3]) && IsDigit(s[4]))
         || (s[0] == '6' && '0' <= s[1] <= '4' && IsDigit(s[2]) && IsDigit(s[3]) && IsDigit(s[4]))
         || (s[0] == '6' && s[1] == '5' && '0' <= s[2] <= '4' && IsDigit(s[3]) && IsDigit(s[4]))
         || (s[0] == '6' && s[1] == '5' && s[2] == '5' && '0' <= s[3] <= '2' && IsDigit(s[4]))
         || (s[0] == '6' && s[1] == '5' && s[2] == '5' && s[3] == '3' && '0' <= s[4] <= '5'))
  }

  /** A five-digit text's value, digit by digit. */
  lemma FiveDigitValue(s: string)
    requires |s| == 5 && AllDigits(s)
    ensures DigitsValue(s) == 10000 * DigitValue(s[0]) + 1000 * DigitValue(s[1]) +
                              100 * DigitValue(s[2]) + 10 * DigitValue(s[3]) + DigitValue(s[4])
  {
    DigitsValueStep(s, 0);
    DigitsValueStep(s, 1);
    DigitsValueStep(s, 2);
    DigitsValueStep(s, 3);
    DigitsValueStep(s, 4);
    assert s[..0] == [] && s[..5] == s;
  }

  /** Every accepted port text is a decimal number in 49152..65535, and it
      parses as an int. */
  lemma PortTextRange(s: string)
    requires IsPortText(s)
    ensures AllDigits(s) && 49152 <= DigitsValue(s) <= 65535
    ensures ParseInt(s) == Some(DigitsValue(s))
  {
    assert IsDigit(s[0]) && IsDigit(s[1]) && IsDigit(s[2]) && IsDigit(s[3]) && IsDigit(s[4]);
    assert AllDigits(s);
    FiveDigitValue(s);
    assert s[0..] == s;
  }

  /** The whole range 50000..65535 is accepted. */
  lemma PortHighRangeAccepted(n: nat)
    requires 50000 <= n <= 65535
    ensures IsPortText(NatToString(n))
  {
    var a, b, c, d, e := FiveDigits(n);
  }

  /** The default and both ends are accepted; 49160 and 49200, inside the
      advertised range, are not. */
  lemma PortExamples()
    ensures IsPortText("62609") && IsPortText("49152") && IsPortText("65535")
    ensures !IsPortText("49160") && !IsPortText("49200") && !IsPortText("65536")
  {
  }

  /** The login window's state: the two text fields, their validity flags,
      the Enter button, and what Enter or the close button leaves behind.
      host is None until Enter stores it (Java null). */
  class LoginWindow {
    var hostText: string
    var portText: string
    var hostIsValid: bool
    var portIsValid: bool
    var enterDisabled: bool
    var host: Option<string>
    var port: int
    var willExitApp: bool
    var closed: bool

    /** Each flag tracks its text field, and Enter is enabled exactly when
        both flags hold. */
    predicate Valid()
      reads this
    {
      && hostIsValid == IsHostText(hostText)
      && portIsValid == IsPortText(portText)
      && enterDisabled == !(hostIsValid && portIsValid)
    }

    /** Both flags start true, with the default texts in the fields; the
        defaults do pass their checks, so the flags agree with them. */
    constructor()
      ensures hostText == "0.0.0.0" && portText == "62609"
      ensures hostIsValid && portIsValid && !enterDisabled
      ensures host == None && port == 0 && !willExitApp && !closed
      ensures Valid()
    {
      hostText := "0.0.0.0";
      portText := "62609";
      hostIsValid := true;
      portIsValid := true;
      enterDisabled := false;
      host := None;
      port := 0;
      willExitApp := false;
      closed := false;
      DefaultHostAccepted();
      PortExamples();
    }

    /** changeButtonState: disable, then enable when both flags hold. */
    method ChangeButtonState()
      modifies this
      ensures enterDisabled == !(hostIsValid && portIsValid)
      ensures hostText == old(hostText) && portText == old(portText)
      ensures hostIsValid == old(hostIsValid) && portIsValid == old(portIsValid)
      ensures host == old(host) && port == old(port)
      ensures willExitApp == old(willExitApp) && closed == old(closed)
    {
      enterDisabled := true;
      if hostIsValid && portIsValid {
        enterDisabled := false;
      }
    }

    /** The host field listener. */
    method EditHost(text: string)
      requires Valid()
      modifies this
      ensures Valid()
      ensures hostText == text && hostIsValid == IsHostText(text)
      ensures portText == old(portText) && portIsValid == old(portIsValid)
      ensures host == old(host) && port == old(port)
      ensures willExitApp == old(willExitApp) && closed == old(closed)
    {
      hostText := text;
      hostIsValid := IsHostText(text);
      ChangeButtonState();
    }

    /** The port field listener. */
    method EditPort(text: string)
      requires Valid()
      modifies this
      ensures Valid()
      ensures portText == text && portIsValid == IsPortText(text)
      ensures hostText == old(hostText) && hostIsValid == old(hostIsValid)
      ensures host == old(host) && port == old(port)
      ensures willExitApp == old(willExitApp) && closed == old(closed)
    {
      portText := text;
      portIsValid := IsPortText(text);
      ChangeButtonState();
    }

    /** The Enter handler, which only an enabled button can run: it stores
        the host text and the parsed port, clears willExitApp and closes the
        window. The port always parses and lies in 49152..65535. */
    method PressEnter()
      requires Valid() && !enterDisabled
      modifies this
      ensures host == Some(hostText) && IsHostText(hostText)
      ensures AllDigits(portText) && port == DigitsValue(portText) && 49152 <= port <= 65535
      ensures !willExitApp && closed
      ensures hostText == old(hostText) && portText == old(portText)
      ensures hostIsValid == old(hostIsValid) && portIsValid == old(portIsValid)
      ensures enterDisabled == old(enterDisabled)
    {
      host := Some(hostText);
      PortTextRange(portText);
      var parsed := ParseInt(portText);
      port := parsed.value;
      willExitApp := false;
      closed := true;
    }

    /** The close-request handler: the application will exit. The handler
        does not consume the event, so the stage then closes. */
    method RequestClose()
      modifies this
      ensures willExitApp && closed
      ensures hostText == old(hostText) && portText == old(portText)
      ensures hostIsValid == old(hostIsValid) && portIsValid == old(portIsValid)
      ensures enterDisabled == old(enterDisabled)
      ensures host == old(host) && port == old(port)
    {
      willExitApp := true;
      closed := true;
    }
  }
}
