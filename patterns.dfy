/**
 * The three validation patterns of the server configuration: `ipv4`,
 * `subdomain` and `hostname`. Each anchored regular expression is written
 * as a predicate that follows the expression piece by piece (an optional
 * group is a disjunction, a repetition is a recursion with a chosen split
 * point). Each is then proved equal to an independent description: a label
 * to its length and characters (LabelShaped), an octet to its decimal value
 * (OctetValued), and the IPv4 and hostname patterns to the string cut at its
 * dots (SplitDots).
 */
module Patterns {

  predicate IsDigit(c: char) { '0' <= c <= '9' }

  /** The class [a-zA-Z0-9]. */
  predicate IsAlnum(c: char) { 'a' <= c <= 'z' || 'A' <= c <= 'Z' || IsDigit(c) }

  /** The class [a-zA-Z0-9-]. */
  predicate IsLdh(c: char) { IsAlnum(c) || c == '-' }

  // ---------------------------------------------------------------------
  // Labels: [a-zA-Z0-9]([a-zA-Z0-9-]{0,61}[a-zA-Z0-9])?
  // ---------------------------------------------------------------------

  /**
   * The label pattern: one alphanumeric character, optionally followed by
   * 0 to 61 characters of [a-zA-Z0-9-] and a final alphanumeric character.
   * The whole `subdomain` pattern is this one anchored at both ends, and the
   * `hostname` pattern repeats it.
   */
  predicate IsLabel(s: string) {
    && |s| >= 1
    && IsAlnum(s[0])
    && (|s| == 1 ||
        (&& |s| - 2 <= 61
         && (forall i | 1 <= i < |s| - 1 :: IsLdh(s[i]))
         && IsAlnum(s[|s| - 1])))
  }

  /** What a label is, stated without the pattern's optional group. */
  predicate LabelShaped(s: string) {
    && 1 <= |s| <= 63
    && (forall i | 0 <= i < |s| :: IsLdh(s[i]))
    && IsAlnum(s[0])
    && IsAlnum(s[|s| - 1])
  }

  lemma LabelMeaning(s: string)
    ensures IsLabel(s) <==> LabelShaped(s)
  {
  }

  lemma LabelUndotted(s: string)
    requires IsLabel(s)
    ensures Undotted(s)
  {
  }

  // ---------------------------------------------------------------------
  // Octets: 25[0-5]|2[0-4][0-9]|[01]?[0-9][0-9]?
  // ---------------------------------------------------------------------

  /** The octet alternation; its third branch is written out for each choice of its two optional classes. */
  predicate IsOctet(s: string) {
    || (|s| == 3 && s[0] == '2' && s[1] == '5' && '0' <= s[2] <= '5')
    || (|s| == 3 && s[0] == '2' && '0' <= s[1] <= '4' && IsDigit(s[2]))
    || (|s| == 1 && IsDigit(s[0]))
    || (|s| == 2 && IsDigit(s[0]) && IsDigit(s[1]))
    || (|s| == 2 && (s[0] == '0' || s[0] == '1') && IsDigit(s[1]))
    || (|s| == 3 && (s[0] == '0' || s[0] == '1') && IsDigit(s[1]) && IsDigit(s[2]))
  }

  predicate AllDigits(s: string) {
    forall i | 0 <= i < |s| :: IsDigit(s[i])
  }

  function DigitValue(c: char): nat
    requires IsDigit(c)
  {
    (c as int) - ('0' as int)
  }

  /** The decimal number a string of digits spells, most significant digit first. */
  function DecimalValue(s: string): nat
    requires AllDigits(s)
    decreases |s|
  {
    if |s| == 0 then 0 else 10 * DecimalValue(s[..|s| - 1]) + DigitValue(s[|s| - 1])
  }

  /** One to three decimal digits whose value is at most 255 (leading zeros allowed). */
  predicate OctetValued(s: string) {
    1 <= |s| <= 3 && AllDigits(s) && DecimalValue(s) <= 255
  }

  /** The octet pattern accepts exactly the 1- to 3-digit decimal spellings of 0..255. */
  lemma OctetMeaning(s: string)
    ensures IsOctet(s) <==> OctetValued(s)
  {
    if |s| == 3 && AllDigits(s) {
      var d0, d1, d2 := DigitValue(s[0]), DigitValue(s[1]), DigitValue(s[2]);
      assert s[..2][..1] == s[..1] && s[..1][..0] == [];
      assert DecimalValue(s[..1]) == d0;
      assert DecimalValue(s[..2]) == 10 * d0 + d1;
      assert DecimalValue(s) == 100 * d0 + 10 * d1 + d2;
    } else if |s| == 2 && AllDigits(s) {
      assert s[..1][..0] == [];
      assert DecimalValue(s[..1]) == DigitValue(s[0]);
      assert DecimalValue(s) == 10 * DigitValue(s[0]) + DigitValue(s[1]);
    } else if |s| == 1 && AllDigits(s) {
      assert s[..0] == [];
      assert DecimalValue(s) == DigitValue(s[0]);
    }
  }

  lemma OctetIsLabel(s: string)
    requires IsOctet(s)
    ensures IsLabel(s)
  {
  }

  lemma OctetUndotted(s: string)
    requires IsOctet(s)
    ensures Undotted(s)
  {
  }

  // ---------------------------------------------------------------------
  // Cutting a string at its dots (the reference reading of both patterns)
  // ---------------------------------------------------------------------

  predicate Undotted(s: string) {
    forall i | 0 <= i < |s| :: s[i] != '.'
  }

  /** The index of the first '.' in s, or |s| when there is none. */
  function FirstDot(s: string): (k: nat)
    ensures k <= |s|
    ensures k < |s| ==> s[k] == '.'
    decreases |s|
  {
    if s == [] || s[0] == '.' then 0 else 1 + FirstDot(s[1..])
  }

  /** No dot comes before the one FirstDot finds. */
  lemma {:induction false} FirstDotIsFirst(s: string)
    ensures Undotted(s[..FirstDot(s)])
    decreases |s|
  {
    if s != [] && s[0] != '.' {
      FirstDotIsFirst(s[1..]);
      assert s[..FirstDot(s)] == [s[0]] + s[1..][..FirstDot(s[1..])];
    }
  }

  /** The pieces of s between its dots, in order: what s.split(".") gives. */
  function SplitDots(s: string): (parts: seq<string>)
    ensures |parts| >= 1
    decreases |s|
  {
    var k := FirstDot(s);
    if k == |s| then [s] else [s[..k]] + SplitDots(s[k + 1..])
  }

  lemma SplitDotsSingle(s: string)
    ensures |SplitDots(s)| == 1 <==> FirstDot(s) == |s|
  {
    var k := FirstDot(s);
    if k < |s| {
      assert |SplitDots(s)| == 1 + |SplitDots(s[k + 1..])|;
    }
  }

  /** The pieces joined back with one dot between neighbours. */
  function JoinDots(parts: seq<string>): string
    requires |parts| >= 1
  {
    if |parts| == 1 then parts[0] else parts[0] + "." + JoinDots(parts[1..])
  }

  /** Cutting at the dots loses nothing. */
  lemma {:induction false} SplitDotsRoundTrip(s: string)
    ensures JoinDots(SplitDots(s)) == s
    decreases |s|
  {
    var k := FirstDot(s);
    if k < |s| {
      var rest := s[k + 1..];
      SplitDotsRoundTrip(rest);
      JoinDotsCons(s[..k], SplitDots(rest));
      Reassemble(s, k);
    }
  }

  lemma JoinDotsCons(head: string, tail: seq<string>)
    requires |tail| >= 1
    ensures JoinDots([head] + tail) == head + "." + JoinDots(tail)
  {
    assert ([head] + tail)[1..] == tail;
  }

  /** A string with a dot at k is what comes before it, the dot, and what comes after. */
  lemma Reassemble(s: string, k: nat)
    requires k < |s| && s[k] == '.'
    ensures s == s[..k] + "." + s[k + 1..]
  {
  }

  /** No piece holds a dot. */
  lemma {:induction false} SplitDotsPiecesUndotted(s: string)
    ensures forall i | 0 <= i < |SplitDots(s)| :: Undotted(SplitDots(s)[i])
    decreases |s|
  {
    var k := FirstDot(s);
    FirstDotIsFirst(s);
    if k < |s| {
      var rest := s[k + 1..];
      SplitDotsPiecesUndotted(rest);
      var parts := SplitDots(s);
      assert parts == [s[..k]] + SplitDots(rest);
      forall i | 0 < i < |parts| ensures Undotted(parts[i]) {
        assert parts[i] == SplitDots(rest)[i - 1];
      }
    }
  }

  lemma {:induction false} FirstDotAfterUndotted(a: string, b: string)
    requires Undotted(a)
    ensures FirstDot(a + "." + b) == |a|
    decreases |a|
  {
    var s := a + "." + b;
    if a != [] {
      assert s[0] == a[0];
      assert s[1..] == a[1..] + "." + b;
      FirstDotAfterUndotted(a[1..], b);
    }
  }

  lemma {:induction false} FirstDotOfUndotted(a: string)
    requires Undotted(a)
    ensures FirstDot(a) == |a|
    decreases |a|
  {
    if a != [] {
      FirstDotOfUndotted(a[1..]);
    }
  }

  lemma SplitAfterUndotted(a: string, b: string)
    requires Undotted(a)
    ensures SplitDots(a + "." + b) == [a] + SplitDots(b)
  {
    var s := a + "." + b;
    FirstDotAfterUndotted(a, b);
    assert s[..|a|] == a;
    assert s[|a| + 1..] == b;
  }

  lemma SplitUndotted(a: string)
    requires Undotted(a)
    ensures SplitDots(a) == [a]
  {
    FirstDotOfUndotted(a);
  }

  // ---------------------------------------------------------------------
  // IPv4: ^(?:OCTET\.){3}OCTET$
  // ---------------------------------------------------------------------

  /** s matches (?:OCTET\.){n}OCTET: n = 0 leaves one octet, otherwise some k ends the first repetition. */
  predicate OctetRun(s: string, n: nat)
    decreases n, 1
  {
    if n == 0 then IsOctet(s) else exists k | 0 < k < |s| :: OctetRunAt(s, k, n)
  }

  /** The first OCTET\. repetition of (?:OCTET\.){n}OCTET is s[..k+1], and the rest matches with n - 1. */
  predicate OctetRunAt(s: string, k: nat, n: nat)
    requires 0 < k < |s| && n > 0
    decreases n, 0
  {
    IsOctet(s[..k]) && s[k] == '.' && OctetRun(s[k + 1..], n - 1)
  }

  /** The `ipv4` pattern. */
  predicate IsIPv4(s: string) {
    OctetRun(s, 3)
  }

  predicate AllOctets(parts: seq<string>) {
    forall i | 0 <= i < |parts| :: IsOctet(parts[i])
  }

  lemma OctetsCons(head: string, tail: seq<string>)
    ensures AllOctets([head] + tail) <==> IsOctet(head) && AllOctets(tail)
  {
    var parts := [head] + tail;
    assert parts[0] == head;
    assert forall i | 0 <= i < |tail| :: parts[i + 1] == tail[i];
  }

  lemma {:induction false} OctetRunSplit(s: string, n: nat)
    ensures OctetRun(s, n) <==> |SplitDots(s)| == n + 1 && AllOctets(SplitDots(s))
  {
    if OctetRun(s, n) {
      OctetRunSound(s, n);
    }
    if |SplitDots(s)| == n + 1 && AllOctets(SplitDots(s)) {
      OctetRunComplete(s, n);
    }
  }

  lemma {:induction false} OctetRunSound(s: string, n: nat)
    requires OctetRun(s, n)
    ensures |SplitDots(s)| == n + 1 && AllOctets(SplitDots(s))
    decreases n
  {
    if n == 0 {
      OctetUndotted(s);
      SplitUndotted(s);
    } else {
      var j :| 0 < j < |s| && OctetRunAt(s, j, n);
      OctetRunSound(s[j + 1..], n - 1);
      OctetRunSoundStep(s, j, n - 1);
    }
  }

  /** The step of OctetRunSound for one leading OCTET\. repetition. */
  lemma OctetRunSoundStep(s: string, j: nat, m: nat)
    requires 0 < j < |s| && IsOctet(s[..j]) && s[j] == '.'
    requires |SplitDots(s[j + 1..])| == m + 1 && AllOctets(SplitDots(s[j + 1..]))
    ensures |SplitDots(s)| == m + 2 && AllOctets(SplitDots(s))
  {
    var head, rest := s[..j], s[j + 1..];
    assert s == head + "." + rest;
    OctetUndotted(head);
    SplitAfterUndotted(head, rest);
    OctetsCons(head, SplitDots(rest));
  }

  lemma {:induction false} OctetRunComplete(s: string, n: nat)
    requires |SplitDots(s)| == n + 1 && AllOctets(SplitDots(s))
    ensures OctetRun(s, n)
    decreases n
  {
    SplitDotsSingle(s);
    if n == 0 {
      assert IsOctet(SplitDots(s)[0]);
    } else {
      var k := FirstDot(s);
      OctetRunCompleteSplit(s, k, n);
      OctetRunComplete(s[k + 1..], n - 1);
      assert OctetRunAt(s, k, n);
    }
  }

  /** The step of OctetRunComplete: the piece before the first dot is an octet, and the rest has n pieces, all octets. */
  lemma OctetRunCompleteSplit(s: string, k: nat, n: nat)
    requires n > 0 && |SplitDots(s)| == n + 1 && AllOctets(SplitDots(s))
    requires k == FirstDot(s)
    ensures 0 < k < |s| && IsOctet(s[..k]) && s[k] == '.'
    ensures |SplitDots(s[k + 1..])| == n && AllOctets(SplitDots(s[k + 1..]))
  {
    SplitDotsSingle(s);
    assert SplitDots(s) == [s[..k]] + SplitDots(s[k + 1..]);
    OctetsCons(s[..k], SplitDots(s[k + 1..]));
  }

  /** The IPv4 pattern accepts exactly four dot-separated decimal octets 0..255, leading zeros allowed. */
  lemma IPv4Meaning(s: string)
    ensures IsIPv4(s) <==>
      (|SplitDots(s)| == 4 && forall i | 0 <= i < 4 :: OctetValued(SplitDots(s)[i]))
  {
    OctetRunSplit(s, 3);
    var parts := SplitDots(s);
    forall i | 0 <= i < |parts| {
      OctetMeaning(parts[i]);
    }
  }

  // ---------------------------------------------------------------------
  // Hostnames: ^(?:LABEL\.)*LABEL\.?$
  // ---------------------------------------------------------------------

  /**
   * The `hostname` pattern: a final label with an optional dot after it, or
   * one repetition of LABEL\. (ending at index k) followed by a hostname.
   */
  predicate IsHostname(s: string)
    decreases |s|, 1
  {
    || IsLabel(s)
    || (|s| >= 1 && s[|s| - 1] == '.' && IsLabel(s[..|s| - 1]))
    || exists k | 0 < k < |s| :: HostnameAt(s, k)
  }

  /** The first LABEL\. repetition is s[..k+1], and the rest is a hostname. */
  predicate HostnameAt(s: string, k: nat)
    requires 0 < k < |s|
    decreases |s|, 0
  {
    IsLabel(s[..k]) && s[k] == '.' && IsHostname(s[k + 1..])
  }

  predicate AllLabels(parts: seq<string>) {
    forall i | 0 <= i < |parts| :: IsLabel(parts[i])
  }

  lemma LabelsCons(head: string, tail: seq<string>)
    ensures AllLabels([head] + tail) <==> IsLabel(head) && AllLabels(tail)
  {
    var parts := [head] + tail;
    assert parts[0] == head;
    assert forall i | 0 <= i < |tail| :: parts[i + 1] == tail[i];
  }

  /** Every piece between dots is a label. */
  predicate DottedLabels(s: string) {
    AllLabels(SplitDots(s))
  }

  /** The hostname pattern accepts one or more labels joined by dots, with at most one dot after the last. */
  lemma {:induction false} HostnameMeaning(s: string)
    ensures IsHostname(s) <==>
      (DottedLabels(s) || (|s| >= 1 && s[|s| - 1] == '.' && DottedLabels(s[..|s| - 1])))
  {
    if IsHostname(s) {
      HostnameSound(s);
    }
    if DottedLabels(s) {
      DottedLabelsHostname(s);
    }
    if |s| >= 1 && s[|s| - 1] == '.' && DottedLabels(s[..|s| - 1]) {
      DottedLabelsDotHostname(s);
    }
  }

  lemma {:induction false} HostnameSound(s: string)
    requires IsHostname(s)
    ensures DottedLabels(s) || (|s| >= 1 && s[|s| - 1] == '.' && DottedLabels(s[..|s| - 1]))
    decreases |s|
  {
    if IsLabel(s) {
      SplitUndotted(s);
    } else if |s| >= 1 && s[|s| - 1] == '.' && IsLabel(s[..|s| - 1]) {
      SplitUndotted(s[..|s| - 1]);
    } else {
      var k :| 0 < k < |s| && HostnameAt(s, k);
      HostnameSound(s[k + 1..]);
      HostnameSoundStep(s, k);
    }
  }

  /** The step of HostnameSound for one leading LABEL\. repetition. */
  lemma HostnameSoundStep(s: string, k: nat)
    requires 0 < k < |s| && IsLabel(s[..k]) && s[k] == '.'
    requires var rest := s[k + 1..];
      DottedLabels(rest) || (|rest| >= 1 && rest[|rest| - 1] == '.' && DottedLabels(rest[..|rest| - 1]))
    ensures DottedLabels(s) || (|s| >= 1 && s[|s| - 1] == '.' && DottedLabels(s[..|s| - 1]))
  {
    var head, rest := s[..k], s[k + 1..];
    LabelUndotted(head);
    if DottedLabels(rest) {
      assert s == head + "." + rest;
      SplitAfterUndotted(head, rest);
      LabelsCons(head, SplitDots(rest));
    } else {
      var body := rest[..|rest| - 1];
      assert s[..|s| - 1] == head + "." + body;
      SplitAfterUndotted(head, body);
      LabelsCons(head, SplitDots(body));
    }
  }

  lemma {:induction false} DottedLabelsHostname(s: string)
    requires DottedLabels(s)
    ensures IsHostname(s)
    decreases |s|
  {
    var k := FirstDot(s);
    if k == |s| {
      assert IsLabel(SplitDots(s)[0]);
    } else {
      var rest := s[k + 1..];
      assert SplitDots(s) == [s[..k]] + SplitDots(rest);
      LabelsCons(s[..k], SplitDots(rest));
      DottedLabelsHostname(rest);
      HostnameCons(s[..k], rest);
      Reassemble(s, k);
    }
  }

  lemma {:induction false} DottedLabelsDotHostname(s: string)
    requires |s| >= 1 && s[|s| - 1] == '.' && DottedLabels(s[..|s| - 1])
    ensures IsHostname(s)
    decreases |s|
  {
    var t := s[..|s| - 1];
    var k := FirstDot(t);
    if k == |t| {
      assert IsLabel(SplitDots(t)[0]);
    } else {
      var tail := t[k + 1..];
      assert SplitDots(t) == [t[..k]] + SplitDots(tail);
      LabelsCons(t[..k], SplitDots(tail));
      var rest := s[k + 1..];
      assert |rest| >= 1 && rest[|rest| - 1] == '.' && rest[..|rest| - 1] == tail;
      DottedLabelsDotHostname(rest);
      assert s[..k] == t[..k] && s[k] == t[k];
      HostnameCons(s[..k], rest);
      Reassemble(s, k);
    }
  }

  // ---------------------------------------------------------------------
  // How the patterns relate
  // ---------------------------------------------------------------------

  /** One more LABEL\. repetition in front of a hostname. */
  lemma HostnameCons(head: string, rest: string)
    requires IsLabel(head) && IsHostname(rest)
    ensures IsHostname(head + "." + rest)
  {
    var s := head + "." + rest;
    var k := |head|;
    assert s[..k] == head && s[k + 1..] == rest;
    assert HostnameAt(s, k);
  }

  /** One more OCTET\. repetition in front of a run of octets. */
  lemma OctetRunCons(octet: string, rest: string, n: nat)
    requires IsOctet(octet) && OctetRun(rest, n)
    ensures OctetRun(octet + "." + rest, n + 1)
  {
    var s := octet + "." + rest;
    var k := |octet|;
    assert s[..k] == octet && s[k + 1..] == rest;
    assert OctetRunAt(s, k, n + 1);
  }

  /** Four octets joined by dots make an IPv4 address. */
  lemma QuadIsIPv4(a: string, b: string, c: string, d: string)
    requires IsOctet(a) && IsOctet(b) && IsOctet(c) && IsOctet(d)
    ensures IsIPv4(a + "." + (b + "." + (c + "." + d)))
  {
    OctetRunCons(c, d, 0);
    OctetRunCons(b, c + "." + d, 1);
    OctetRunCons(a, b + "." + (c + "." + d), 2);
  }

  /** Every run of octets starts with a digit. */
  lemma OctetRunStartsWithDigit(s: string, n: nat)
    requires OctetRun(s, n)
    ensures |s| > 0 && IsDigit(s[0])
  {
    if n > 0 {
      var k :| 0 < k < |s| && OctetRunAt(s, k, n);
      assert s[..k][0] == s[0];
    }
  }

  /** A string the subdomain pattern accepts is a one-label hostname. */
  lemma LabelIsHostname(s: string)
    requires IsLabel(s)
    ensures IsHostname(s)
  {
  }

  /** Every string the IPv4 pattern accepts is also accepted by the hostname pattern. */
  lemma IPv4IsHostname(s: string)
    requires IsIPv4(s)
    ensures IsHostname(s)
  {
    OctetRunSplit(s, 3);
    var parts := SplitDots(s);
    forall i | 0 <= i < |parts| ensures IsLabel(parts[i]) {
      OctetIsLabel(parts[i]);
    }
    assert AllLabels(parts);
    DottedLabelsHostname(s);
  }
}
