/**
 The textual IPv4 check of the security layer, measured against the IPv4address grammar of
 section 3.2.2 of RFC 3986: four decimal octets without leading zeros, separated by dots.
 */
module Ipv4 {
  import opened Decimal
  import opened Fields

  type Octets = o: seq<nat> | |o| == 4 && forall i | 0 <= i < 4 :: o[i] < 256 witness [0, 0, 0, 0]

  /** An address printed in dotted form. */
  function Dotted(o: Octets): string {
    NatToString(o[0]) + "." + NatToString(o[1]) + "." + NatToString(o[2]) + "." + NatToString(o[3])
  }

  ghost predicate IsIPv4Address(s: string) {
    exists o: Octets :: s == Dotted(o)
  }

  /** A decimal octet of the grammar. */
  predicate IsOctet(s: string) {
    IsNumeral(s) && Value(s) < 256
  }

  predicate AllOctets(fields: seq<string>) {
    forall i | 0 <= i < |fields| :: IsOctet(fields[i])
  }

  /** One pass through the body of the loop of `isValidIPv4`: false when it returns early. */
  method CheckOctet(octet: string) returns (ok: bool)
    ensures ok == IsOctet(octet)
  {
    if octet == "" || |octet| > 3 {
      if |octet| > 3 && IsNumeral(octet) { LongIsLarge(octet); }
      return false;
    }
    for i := 0 to |octet|
      invariant AllDigits(octet[..i])
    {
      if !IsDigit(octet[i]) { return false; }
    }
    assert octet[..|octet|] == octet;
    if |octet| > 1 && octet[0] == '0' { return false; }
    StoIOfDigits(octet);
    ShortDigitsAreSmall(octet);
    var val := StoI(octet);
    if val.None? { return false; }
    if val.value < 0 || val.value > 255 { return false; }
    ok := true;
  }

  lemma {:induction false} LongIsLarge(s: string)
    requires IsNumeral(s) && |s| > 1
    ensures Value(s) >= 10
    ensures |s| > 2 ==> Value(s) >= 100
    ensures |s| > 3 ==> Value(s) >= 1000
  {
    var front := s[..|s| - 1];
    NumeralIsPositive(front);
    if |s| > 2 {
      LongIsLarge(front);
    }
  }

  /** The strings that the check lets through; `AcceptedStrings` says which ones they are. */
  predicate ValidIPv4(ip: string) {
    var fields := Split(ip, '.');
    |fields| == 4 && AllOctets(fields)
  }

  /** The loop has checked the fields read so far, and the rest is still in the stream. */
  ghost predicate HasRead(read: seq<string>, stream: string, ip: string) {
    read + Split(stream, '.') == Split(ip, '.') && AllOctets(read)
  }

  lemma TakeField(read: seq<string>, stream: string, ip: string)
    requires HasRead(read, stream, ip) && stream != ""
    ensures var octet := stream[..Find(stream, '.')];
            && (IsOctet(octet) ==> HasRead(read + [octet], Rest(stream, '.'), ip))
            && (!IsOctet(octet) ==> !ValidIPv4(ip))
  {
    var octet := stream[..Find(stream, '.')];
    assert Split(stream, '.') == [octet] + Split(Rest(stream, '.'), '.');
    assert Split(ip, '.')[|read|] == octet;
    assert read + ([octet] + Split(Rest(stream, '.'), '.')) == read + [octet] + Split(Rest(stream, '.'), '.');
  }

  lemma AllRead(read: seq<string>, ip: string)
    requires HasRead(read, "", ip)
    ensures ValidIPv4(ip) <==> |read| == 4
  {
    assert read + [] == read;
  }

  method IsValidIPv4(ip: string) returns (ok: bool)
    ensures ok == ValidIPv4(ip)
  {
    if ip == "" { return false; }
    var count := 0;
    var stream := ip;
    ghost var read: seq<string> := [];
    while stream != ""
      invariant HasRead(read, stream, ip) && count == |read|
      decreases |stream|
    {
      TakeField(read, stream, ip);
      var octet := stream[..Find(stream, '.')];
      var good := CheckOctet(octet);
      if !good { return false; }
      read := read + [octet];
      stream := Rest(stream, '.');
      count := count + 1;
    }
    AllRead(read, ip);
    return count == 4;
  }

  lemma DottedTerminated(o: Octets)
    ensures Dotted(o) + ['.']
         == Terminated([NatToString(o[0]), NatToString(o[1]), NatToString(o[2]), NatToString(o[3])], '.')
  {
    TerminatedFour(NatToString(o[0]), NatToString(o[1]), NatToString(o[2]), NatToString(o[3]), '.');
  }

  lemma SplitOfDotted(o: Octets)
    ensures var fields := [NatToString(o[0]), NatToString(o[1]), NatToString(o[2]), NatToString(o[3])];
            Split(Dotted(o), '.') == fields && Split(Dotted(o) + ['.'], '.') == fields
  {
    var fields := [NatToString(o[0]), NatToString(o[1]), NatToString(o[2]), NatToString(o[3])];
    DottedTerminated(o);
    SplitOfTerminated(fields, '.');
    var s := Dotted(o);
    assert s[|s| - 1] == fields[3][|fields[3]| - 1];
    ClosingDelimiterIsDropped(s, '.');
  }

  lemma PrintedOctet(n: nat)
    requires n < 256
    ensures IsOctet(NatToString(n)) && Value(NatToString(n)) == n
  {
    PrintedIsNumeral(n);
    ValueOfPrinted(n);
  }

  /** The number each field of a dotted string denotes. */
  function ParseOctets(ip: string): Octets
    requires ValidIPv4(ip)
  {
    var f := Split(ip, '.');
    [Value(f[0]), Value(f[1]), Value(f[2]), Value(f[3])]
  }

  lemma PrintedFields(o: Octets, f: seq<string>)
    requires |f| == 4 && forall i | 0 <= i < 4 :: f[i] == NatToString(o[i])
    ensures AllOctets(f) && o == [Value(f[0]), Value(f[1]), Value(f[2]), Value(f[3])]
  {
    forall i | 0 <= i < 4 ensures IsOctet(f[i]) && Value(f[i]) == o[i] {
      PrintedOctet(o[i]);
    }
  }

  /** Printing an address and parsing it back gives the same four numbers. */
  lemma ParseOfDotted(o: Octets)
    ensures ValidIPv4(Dotted(o)) && ParseOctets(Dotted(o)) == o
    ensures ValidIPv4(Dotted(o) + ['.'])
  {
    SplitOfDotted(o);
    PrintedFields(o, Split(Dotted(o), '.'));
  }

  /** Parsing an accepted string and printing it back gives it again, up to a trailing dot. */
  lemma DottedOfParse(ip: string)
    requires ValidIPv4(ip)
    ensures ip == Dotted(ParseOctets(ip)) || ip == Dotted(ParseOctets(ip)) + ['.']
  {
    var f, o := Split(ip, '.'), ParseOctets(ip);
    PrintOfValue(f[0]);
    PrintOfValue(f[1]);
    PrintOfValue(f[2]);
    PrintOfValue(f[3]);
    assert f == [f[0], f[1], f[2], f[3]];
    DottedTerminated(o);
    TerminatedOfSplit(ip, '.');
    var d := Dotted(o);
    if ip[|ip| - 1] != '.' {
      assert ip == (ip + ['.'])[..|ip|] == (d + ['.'])[..|d|] == d;
    }
  }

  lemma DottedIsAccepted(ip: string)
    requires IsIPv4Address(ip)
    ensures ValidIPv4(ip) && ValidIPv4(ip + ['.'])
  {
    var o: Octets :| ip == Dotted(o);
    ParseOfDotted(o);
  }

  ghost predicate IsAddressWithDot(ip: string) {
    ip != "" && ip[|ip| - 1] == '.' && IsIPv4Address(ip[..|ip| - 1])
  }

  lemma CutLast(s: string)
    requires s != ""
    ensures s == s[..|s| - 1] + [s[|s| - 1]]
  {}

  lemma GrammarIsAccepted(ip: string)
    requires IsIPv4Address(ip) || IsAddressWithDot(ip)
    ensures ValidIPv4(ip)
  {
    if IsIPv4Address(ip) {
      DottedIsAccepted(ip);
    } else {
      CutLast(ip);
      DottedIsAccepted(ip[..|ip| - 1]);
    }
  }

  /** The check accepts the addresses of the grammar, each also with one trailing dot. */
  lemma AcceptedStrings(ip: string)
    ensures ValidIPv4(ip) <==> IsIPv4Address(ip) || IsAddressWithDot(ip)
  {
    if ValidIPv4(ip) {
      DottedOfParse(ip);
      var d := Dotted(ParseOctets(ip));
      assert IsIPv4Address(d);
      assert (d + ['.'])[..|d|] == d;
    }
    if IsIPv4Address(ip) || IsAddressWithDot(ip) {
      GrammarIsAccepted(ip);
    }
  }

  /** Accepted addresses are made of digits and dots. */
  lemma ValidIsPlain(ip: string, c: char)
    requires ValidIPv4(ip) && !IsDigit(c) && c != '.'
    ensures Free(ip, c)
  {
    DottedOfParse(ip);
    DottedIsPlain(ParseOctets(ip), c);
  }

  lemma DottedIsPlain(o: Octets, c: char)
    requires !IsDigit(c) && c != '.'
    ensures Free(Dotted(o), c) && Free(Dotted(o) + ['.'], c)
  {
    DigitsAreFree(NatToString(o[0]), c);
    DigitsAreFree(NatToString(o[1]), c);
    DigitsAreFree(NatToString(o[2]), c);
    DigitsAreFree(NatToString(o[3]), c);
  }
}
