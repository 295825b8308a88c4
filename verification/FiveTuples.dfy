/**
 The 5-tuple that identifies a session: its canonical key and its pipe-delimited wire form.
 */
module FiveTuples {
  import opened Decimal
  import opened Fields

  type Port = p: int | 0 <= p < 65536

  datatype FiveTuple = FiveTuple(srcIp: string, srcPort: Port, dstIp: string, dstPort: Port, protocol: string)

  /** `src_ip:src_port->dst_ip:dst_port/protocol` */
  function ToKey(t: FiveTuple): string {
    t.srcIp + ":" + NatToString(t.srcPort) + "->" + t.dstIp + ":" + NatToString(t.dstPort) + "/" + t.protocol
  }

  /** `src_ip|src_port|dst_ip|dst_port|protocol` */
  function Serialize(t: FiveTuple): string {
    t.srcIp + "|" + NatToString(t.srcPort) + "|" + t.dstIp + "|" + NatToString(t.dstPort) + "|" + t.protocol
  }

  predicate IsPort(n: Option<int>) {
    n.Some? && 0 <= n.value <= 65535
  }

  /** The tuple that the fields of a message leave in the out parameter; the text fields are written first. */
  function FromFields(fields: seq<string>, before: FiveTuple): (bool, FiveTuple) {
    if |fields| < 5 then (false, before)
    else
      var out := before.(srcIp := fields[0], dstIp := fields[2], protocol := fields[4]);
      var sp, dp := StoI(fields[1]), StoI(fields[3]);
      if IsPort(sp) && IsPort(dp) then (true, out.(srcPort := sp.value, dstPort := dp.value))
      else (false, out)
  }

  /** The verdict of `deserialize` and the tuple in its out parameter, which held `before`. */
  function Deserialized(data: string, before: FiveTuple): (bool, FiveTuple) {
    FromFields(Split(data, '|'), before)
  }

  method Deserialize(data: string, before: FiveTuple) returns (ok: bool, out: FiveTuple)
    ensures (ok, out) == Deserialized(data, before)
    ensures !ok ==> out.srcPort == before.srcPort && out.dstPort == before.dstPort
    ensures |Split(data, '|')| < 5 ==> !ok && out == before
  {
    out := before;
    var tokens := ReadFields(data, '|');
    if |tokens| < 5 { return false, out; }
    out := out.(srcIp := tokens[0]);
    out := out.(dstIp := tokens[2]);
    out := out.(protocol := tokens[4]);
    var sp := StoI(tokens[1]);
    if sp.None? { return false, out; }
    var dp := StoI(tokens[3]);
    if dp.None? { return false, out; }
    if sp.value < 0 || sp.value > 65535 || dp.value < 0 || dp.value > 65535 { return false, out; }
    out := out.(srcPort := sp.value);
    out := out.(dstPort := dp.value);
    ok := true;
  }

  lemma PortParsesBack(p: Port)
    ensures StoI(NatToString(p)) == Some(p)
  {
    StoIOfDigits(NatToString(p));
    ValueOfPrinted(p);
  }

  /** A port field is printed back as it was exactly when it is a numeral without leading zeros. */
  lemma PortPrintsBack(s: string, p: Port)
    requires StoI(s) == Some(p)
    ensures NatToString(p) == s <==> IsNumeral(s)
  {
    PrintedIsNumeral(p);
    if IsNumeral(s) {
      StoIOfDigits(s);
      PrintOfValue(s);
    }
  }

  /**
   What a message leaves behind: with five fields or more the three text fields are written, whatever
   the ports; the ports are written only if both can be read as numbers up to 65535.
   */
  lemma BadPortLeavesTheText(data: string, before: FiveTuple)
    requires |Split(data, '|')| >= 5
    ensures var f := Split(data, '|');
            var (ok, out) := Deserialized(data, before);
            && out.srcIp == f[0] && out.dstIp == f[2] && out.protocol == f[4]
            && (ok <==> && StoI(f[1]).Some? && 0 <= StoI(f[1]).value <= 65535
                        && StoI(f[3]).Some? && 0 <= StoI(f[3]).value <= 65535)
            && (if ok then out.srcPort == StoI(f[1]).value && out.dstPort == StoI(f[3]).value
                else out.srcPort == before.srcPort && out.dstPort == before.dstPort)
  {}

  lemma PortsInPrint()
    ensures NatToString(5000) == "5000" && NatToString(9000) == "9000"
  {}

  /** The key of one tuple, written out. */
  lemma KeyFormat()
    ensures ToKey(FiveTuple("1.2.3.4", 5000, "0.0.0.0", 9000, "UDP")) == "1.2.3.4:5000->0.0.0.0:9000/UDP"
  {
    PortsInPrint();
    var front := "1.2.3.4" + ":" + "5000" + "->";
    assert front == "1.2.3.4:5000->";
    var middle := front + "0.0.0.0" + ":";
    assert middle == "1.2.3.4:5000->0.0.0.0:";
    assert middle + "9000" + "/" + "UDP" == "1.2.3.4:5000->0.0.0.0:9000/UDP";
  }

  /** And its wire form. */
  lemma WireFormat()
    ensures Serialize(FiveTuple("1.2.3.4", 5000, "0.0.0.0", 9000, "UDP")) == "1.2.3.4|5000|0.0.0.0|9000|UDP"
  {
    PortsInPrint();
    var front := "1.2.3.4" + "|" + "5000" + "|";
    assert front == "1.2.3.4|5000|";
    var middle := front + "0.0.0.0" + "|";
    assert middle == "1.2.3.4|5000|0.0.0.0|";
    assert middle + "9000" + "|" + "UDP" == "1.2.3.4|5000|0.0.0.0|9000|UDP";
  }

  lemma SerializeTerminated(t: FiveTuple)
    ensures Serialize(t) + ['|']
         == Terminated([t.srcIp, NatToString(t.srcPort), t.dstIp, NatToString(t.dstPort), t.protocol], '|')
    ensures t.protocol == "" ==>
              Serialize(t) == Terminated([t.srcIp, NatToString(t.srcPort), t.dstIp, NatToString(t.dstPort)], '|')
  {
    var four := [t.srcIp, NatToString(t.srcPort), t.dstIp, NatToString(t.dstPort)];
    TerminatedFour(four[0], four[1], four[2], four[3], '|');
    TerminatedAppend(four, t.protocol, '|');
    assert four + [t.protocol] == [four[0], four[1], four[2], four[3], t.protocol];
    assert Serialize(t) == Terminated(four, '|') + t.protocol;
  }

  lemma SplitOfTerminatedTuple(t: FiveTuple)
    requires Free(t.srcIp, '|') && Free(t.dstIp, '|') && Free(t.protocol, '|')
    ensures Split(Serialize(t) + ['|'], '|')
         == [t.srcIp, NatToString(t.srcPort), t.dstIp, NatToString(t.dstPort), t.protocol]
  {
    var five := [t.srcIp, NatToString(t.srcPort), t.dstIp, NatToString(t.dstPort), t.protocol];
    SerializeTerminated(t);
    DigitsAreFree(five[1], '|');
    DigitsAreFree(five[3], '|');
    SplitOfTerminated(five, '|');
  }

  lemma SerializeEnds(t: FiveTuple)
    requires t.protocol != ""
    ensures Serialize(t)[|Serialize(t)| - 1] == t.protocol[|t.protocol| - 1]
  {}

  /** An empty protocol leaves no fifth field. */
  lemma SplitOfSerialized(t: FiveTuple)
    requires Free(t.srcIp, '|') && Free(t.dstIp, '|') && Free(t.protocol, '|')
    ensures Split(Serialize(t), '|')
         == if t.protocol == "" then [t.srcIp, NatToString(t.srcPort), t.dstIp, NatToString(t.dstPort)]
            else [t.srcIp, NatToString(t.srcPort), t.dstIp, NatToString(t.dstPort), t.protocol]
  {
    if t.protocol == "" {
      var four := [t.srcIp, NatToString(t.srcPort), t.dstIp, NatToString(t.dstPort)];
      SerializeTerminated(t);
      DigitsAreFree(four[1], '|');
      DigitsAreFree(four[3], '|');
      SplitOfTerminated(four, '|');
    } else {
      SplitOfTerminatedTuple(t);
      SerializeEnds(t);
      ClosingDelimiterIsDropped(Serialize(t), '|');
    }
  }

  lemma ReadsBack(t: FiveTuple, before: FiveTuple)
    ensures FromFields([t.srcIp, NatToString(t.srcPort), t.dstIp, NatToString(t.dstPort), t.protocol], before)
         == (true, t)
  {
    PortParsesBack(t.srcPort);
    PortParsesBack(t.dstPort);
  }

  lemma SafeRoundTrip(t: FiveTuple, before: FiveTuple)
    requires Free(t.srcIp, '|') && Free(t.dstIp, '|') && Free(t.protocol, '|') && t.protocol != ""
    ensures Deserialized(Serialize(t), before) == (true, t)
  {
    SplitOfSerialized(t);
    ReadsBack(t, before);
  }

  lemma ReadBackIsSafe(t: FiveTuple, before: FiveTuple)
    requires Deserialized(Serialize(t), before) == (true, t)
    ensures Free(t.srcIp, '|') && Free(t.dstIp, '|') && Free(t.protocol, '|') && t.protocol != ""
  {
    var fields := Split(Serialize(t), '|');
    FieldsAreFree(Serialize(t), '|');
    assert t.srcIp == fields[0] && t.dstIp == fields[2] && t.protocol == fields[4];
    SplitOfSerialized(t);
  }

  /** Serialising and reading back returns the tuple exactly when no text field can be misread. */
  lemma RoundTrip(t: FiveTuple, before: FiveTuple)
    ensures Deserialized(Serialize(t), before) == (true, t)
       <==> Free(t.srcIp, '|') && Free(t.dstIp, '|') && Free(t.protocol, '|') && t.protocol != ""
  {
    if Deserialized(Serialize(t), before) == (true, t) {
      ReadBackIsSafe(t, before);
    }
    if Free(t.srcIp, '|') && Free(t.dstIp, '|') && Free(t.protocol, '|') && t.protocol != "" {
      SafeRoundTrip(t, before);
    }
  }

  /** Printing the tuple of an accepted message gives the message again, up to one closing delimiter. */
  ghost predicate PrintsBack(t: FiveTuple, data: string) {
    Serialize(t) == data || Serialize(t) + ['|'] == data
  }

  lemma FiveFieldsPrintBack(data: string, f: seq<string>, t: FiveTuple)
    requires f == Split(data, '|') && |f| == 5
    requires t == FiveTuple(f[0], t.srcPort, f[2], t.dstPort, f[4])
    requires NatToString(t.srcPort) == f[1] && NatToString(t.dstPort) == f[3]
    ensures PrintsBack(t, data)
  {
    SerializeTerminated(t);
    assert f == [f[0], f[1], f[2], f[3], f[4]];
    TerminatedOfSplit(data, '|');
    var s := Serialize(t);
    if data[|data| - 1] != '|' { assert s == (s + ['|'])[..|s|] == (data + ['|'])[..|data|] == data; }
  }

  lemma PrintedBackFields(data: string, t: FiveTuple)
    requires PrintsBack(t, data) && |Split(data, '|')| >= 5
    requires Free(t.srcIp, '|') && Free(t.dstIp, '|') && Free(t.protocol, '|')
    ensures Split(data, '|') == [t.srcIp, NatToString(t.srcPort), t.dstIp, NatToString(t.dstPort), t.protocol]
  {
    if Serialize(t) == data {
      SplitOfSerialized(t);
    } else {
      SplitOfTerminatedTuple(t);
    }
  }

  /**
   Which accepted messages are prints of the tuple they give: exactly those of five fields whose
   ports are numerals without sign, spaces, leading zeros or trailing text.
   */
  lemma ReadAndPrintBack(data: string, before: FiveTuple)
    requires Deserialized(data, before).0
    ensures var f := Split(data, '|');
            PrintsBack(Deserialized(data, before).1, data) <==> |f| == 5 && IsNumeral(f[1]) && IsNumeral(f[3])
  {
    var f, t := Split(data, '|'), Deserialized(data, before).1;
    PortPrintsBack(f[1], t.srcPort);
    PortPrintsBack(f[3], t.dstPort);
    if |f| == 5 && IsNumeral(f[1]) && IsNumeral(f[3]) {
      FiveFieldsPrintBack(data, f, t);
    }
    if PrintsBack(t, data) {
      FieldsAreFree(data, '|');
      PrintedBackFields(data, t);
    }
  }

  // ---------------------------------------------------------------------------------------
  // Which tuples have a key of their own
  // ---------------------------------------------------------------------------------------

  predicate IsPortText(s: string) {
    IsNumeral(s) && Value(s) < 65536
  }

  predicate DecoyAt(s: string, mark: string, i: nat, j: nat)
    requires i < j <= |s|
  {
    s[i] == ':' && IsPortText(s[i + 1..j]) && mark <= s[j..]
  }

  /** Inside the string a field seems to end: a colon, a port, and the mark that follows a port in a key. */
  predicate HasDecoy(s: string, mark: string) {
    exists i, j | 0 <= i < j <= |s| :: DecoyAt(s, mark, i, j)
  }

  /** The fields of the tuple leave more than one way to cut its key. */
  predicate IsAmbiguous(t: FiveTuple) {
    HasDecoy(t.srcIp, "->") || HasDecoy(t.dstIp, "->") || HasDecoy(t.dstIp, "/") || HasDecoy(t.protocol, "/")
  }

  lemma CutTwice(s: string, i: nat, j: nat)
    requires i < j <= |s|
    ensures s == s[..i] + [s[i]] + s[i + 1..j] + s[j..]
  {}

  lemma CutDecoy(s: string, mark: string) returns (x: string, p: Port, y: string)
    requires HasDecoy(s, mark)
    ensures s == x + ":" + NatToString(p) + mark + y
  {
    var i, j :| 0 <= i < j <= |s| && DecoyAt(s, mark, i, j);
    x, p, y := s[..i], Value(s[i + 1..j]), s[j..][|mark|..];
    PrintOfValue(s[i + 1..j]);
    CutTwice(s, i, j);
    assert s[j..] == mark + y;
    assert x + ":" + NatToString(p) + (mark + y) == x + ":" + NatToString(p) + mark + y;
  }

  lemma IsDecoy(x: string, p: Port, mark: string, y: string)
    ensures HasDecoy(x + [':'] + (NatToString(p) + mark) + y, mark)
  {
    var s := x + [':'] + (NatToString(p) + mark) + y;
    var i, j := |x|, |x| + 1 + |NatToString(p)|;
    PrintedIsNumeral(p);
    ValueOfPrinted(p);
    assert s[i + 1..j] == NatToString(p);
    assert s[j..] == mark + y;
    assert DecoyAt(s, mark, i, j);
  }

  /** A key from its destination port on, from its destination on, and from its source port on. */
  function AfterDstIp(t: FiveTuple): string {
    (NatToString(t.dstPort) + "/") + t.protocol
  }

  function AfterArrow(t: FiveTuple): string {
    t.dstIp + [':'] + AfterDstIp(t)
  }

  function AfterSrcIp(t: FiveTuple): string {
    (NatToString(t.srcPort) + "->") + AfterArrow(t)
  }

  lemma KeyCut(t: FiveTuple)
    ensures ToKey(t) == t.srcIp + [':'] + AfterSrcIp(t)
  {
    var a, b, c, d, e := t.srcIp, NatToString(t.srcPort), t.dstIp, NatToString(t.dstPort), t.protocol;
    assert a + ":" + b + "->" + c + ":" + d + "/" + e == a + [':'] + ((b + "->") + (c + [':'] + ((d + "/") + e)));
  }

  lemma DigitsEnd(n: string, x: string)
    requires AllDigits(n) && x != "" && !IsDigit(x[0])
    ensures (forall k | 0 <= k < |n| :: IsDigit((n + x)[k])) && !IsDigit((n + x)[|n|])
  {}

  lemma SameDigits(n: string, x: string, m: string, y: string)
    requires AllDigits(n) && x != "" && !IsDigit(x[0])
    requires AllDigits(m) && y != "" && !IsDigit(y[0])
    requires n + x == m + y
    ensures n == m && x == y
  {
    DigitsEnd(n, x);
    DigitsEnd(m, y);
    var s := n + x;
    assert |n| == |m|;
    assert n == s[..|n|] == m && x == s[|n|..] == y;
  }

  lemma SamePort(p: Port, x: string, q: Port, y: string, mark: string)
    requires mark != "" && !IsDigit(mark[0])
    requires (NatToString(p) + mark) + x == (NatToString(q) + mark) + y
    ensures p == q && x == y
  {
    assert (NatToString(p) + mark) + x == NatToString(p) + (mark + x);
    assert (NatToString(q) + mark) + y == NatToString(q) + (mark + y);
    SameDigits(NatToString(p), mark + x, NatToString(q), mark + y);
    NatToStringInjective(p, q);
    assert x == (mark + x)[|mark|..] == y;
  }

  lemma ArrowIsNoSlash(p: Port, x: string, q: Port, y: string)
    ensures (NatToString(p) + "->") + x != (NatToString(q) + "/") + y
  {
    assert (NatToString(p) + "->") + x == NatToString(p) + ("->" + x);
    assert (NatToString(q) + "/") + y == NatToString(q) + ("/" + y);
    if NatToString(p) + ("->" + x) == NatToString(q) + ("/" + y) {
      SameDigits(NatToString(p), "->" + x, NatToString(q), "/" + y);
    }
  }

  lemma SameLengthCut(a: string, x: string, b: string, y: string)
    requires a + [':'] + x == b + [':'] + y && |a| == |b|
    ensures a == b && x == y
  {
    var s := a + [':'] + x;
    assert a == s[..|a|] == b;
    assert x == s[|a| + 1..] == y;
  }

  /** Two cuts of one string at colons: the longer front covers the port and the mark after the shorter one. */
  lemma LongerFront(a: string, n: string, x: string, b: string, y: string) returns (z: string)
    requires a + [':'] + (n + x) == b + [':'] + y && Free(n, ':') && |a| < |b|
    ensures b == a + [':'] + n + z && x == z + [':'] + y
  {
    var s := b + [':'] + y;
    var k := |a| + 1 + |n|;
    assert s == a + [':'] + n + x;
    assert s[|b|] == ':';
    assert forall i | |a| < i < k :: s[i] == n[i - |a| - 1];
    z := b[k..];
    assert b == s[..|b|] && s[..k] == a + [':'] + n;
    assert x == s[k..] == b[k..] + [':'] + y;
  }

  /** Distinct tuples with the same source have distinct keys, unless the second is ambiguous. */
  lemma SharedTail(s: FiveTuple, t: FiveTuple)
    requires AfterArrow(s) == AfterArrow(t)
    ensures IsAmbiguous(t) || (s.dstIp == t.dstIp && s.dstPort == t.dstPort && s.protocol == t.protocol)
  {
    if |s.dstIp| < |t.dstIp| {
      var z := LongerFront(s.dstIp, NatToString(s.dstPort) + "/", s.protocol, t.dstIp, AfterDstIp(t));
      IsDecoy(s.dstIp, s.dstPort, "/", z);
    } else if |s.dstIp| > |t.dstIp| {
      var z := LongerFront(t.dstIp, NatToString(t.dstPort) + "/", t.protocol, s.dstIp, AfterDstIp(s));
      CutOnward(z, NatToString(s.dstPort) + "/", s.protocol);
      IsDecoy(z, s.dstPort, "/", s.protocol);
    } else {
      SameLengthCut(s.dstIp, AfterDstIp(s), t.dstIp, AfterDstIp(t));
      SamePort(s.dstPort, s.protocol, t.dstPort, t.protocol, "/");
    }
  }

  lemma CutOnward(z: string, n: string, x: string)
    ensures z + [':'] + (n + x) == z + [':'] + n + x
  {}

  /** The source of another tuple with this key reaches into the destination, or over it. */
  lemma SourceReachesIn(s: FiveTuple, t: FiveTuple, y: string)
    requires AfterArrow(t) == y + [':'] + AfterSrcIp(s)
    ensures IsAmbiguous(t)
  {
    if |y| < |t.dstIp| {
      var z := LongerFront(y, NatToString(s.srcPort) + "->", AfterArrow(s), t.dstIp, AfterDstIp(t));
      IsDecoy(y, s.srcPort, "->", z);
    } else if |t.dstIp| < |y| {
      var z := LongerFront(t.dstIp, NatToString(t.dstPort) + "/", t.protocol, y, AfterSrcIp(s));
      var x := z + [':'] + (NatToString(s.srcPort) + "->") + s.dstIp;
      var n := NatToString(s.dstPort) + "/";
      assert t.protocol == x + [':'] + n + s.protocol;
      IsDecoy(x, s.dstPort, "/", s.protocol);
    } else {
      SameLengthCut(t.dstIp, AfterDstIp(t), y, AfterSrcIp(s));
      ArrowIsNoSlash(s.srcPort, AfterArrow(s), t.dstPort, t.protocol);
    }
  }

  lemma SharedKeyIsAmbiguous(s: FiveTuple, t: FiveTuple)
    requires ToKey(s) == ToKey(t) && s != t
    ensures IsAmbiguous(t)
  {
    KeyCut(s);
    KeyCut(t);
    if |s.srcIp| < |t.srcIp| {
      var z := LongerFront(s.srcIp, NatToString(s.srcPort) + "->", AfterArrow(s), t.srcIp, AfterSrcIp(t));
      IsDecoy(s.srcIp, s.srcPort, "->", z);
    } else if |s.srcIp| > |t.srcIp| {
      var z := LongerFront(t.srcIp, NatToString(t.srcPort) + "->", AfterArrow(t), s.srcIp, AfterSrcIp(s));
      SourceReachesIn(s, t, z);
    } else {
      SameLengthCut(s.srcIp, AfterSrcIp(s), t.srcIp, AfterSrcIp(t));
      SamePort(s.srcPort, AfterArrow(s), t.srcPort, AfterArrow(t), "->");
      SharedTail(s, t);
    }
  }

  lemma Regroup(a: string, b: string, c: string, d: string, e: string, f: string)
    ensures a + b + c + d + e + f == a + (b + c + d + e + f)
  {
    assert a + (b + c) == a + b + c;
    assert a + (b + c + d) == a + (b + c) + d;
    assert a + (b + c + d + e) == a + (b + c + d) + e;
  }

  /** A port and an arrow may belong to the source or to the destination. */
  lemma ArrowIsAmbiguous(a: string, p: Port, b: string, q: Port, c: string, r: Port, protocol: string)
    ensures ToKey(FiveTuple(a + ":" + NatToString(p) + "->" + b, q, c, r, protocol))
         == ToKey(FiveTuple(a, p, b + ":" + NatToString(q) + "->" + c, r, protocol))
  {
    Regroup(a + ":" + NatToString(p) + "->", b, ":", NatToString(q), "->", c);
  }

  /** A port and a slash may belong to the destination or to the protocol. */
  lemma SlashIsAmbiguous(a: string, p: Port, b: string, q: Port, c: string, r: Port, d: string)
    ensures ToKey(FiveTuple(a, p, b + ":" + NatToString(q) + "/" + c, r, d))
         == ToKey(FiveTuple(a, p, b, q, c + ":" + NatToString(r) + "/" + d))
  {
    var front := a + ":" + NatToString(p) + "->";
    Regroup(front, b, ":", NatToString(q), "/", c);
    Regroup(front + b + ":" + NatToString(q) + "/", c, ":", NatToString(r), "/", d);
  }

  lemma AmbiguousKeyIsShared(t: FiveTuple) returns (s: FiveTuple)
    requires IsAmbiguous(t)
    ensures s != t && ToKey(s) == ToKey(t)
  {
    if HasDecoy(t.srcIp, "->") {
      var x, p, y := CutDecoy(t.srcIp, "->");
      s := FiveTuple(x, p, y + ":" + NatToString(t.srcPort) + "->" + t.dstIp, t.dstPort, t.protocol);
      ArrowIsAmbiguous(x, p, y, t.srcPort, t.dstIp, t.dstPort, t.protocol);
      assert |s.srcIp| < |t.srcIp|;
    } else if HasDecoy(t.dstIp, "->") {
      var x, p, y := CutDecoy(t.dstIp, "->");
      s := FiveTuple(t.srcIp + ":" + NatToString(t.srcPort) + "->" + x, p, y, t.dstPort, t.protocol);
      ArrowIsAmbiguous(t.srcIp, t.srcPort, x, p, y, t.dstPort, t.protocol);
      assert |s.srcIp| > |t.srcIp|;
    } else if HasDecoy(t.dstIp, "/") {
      var x, p, y := CutDecoy(t.dstIp, "/");
      s := FiveTuple(t.srcIp, t.srcPort, x, p, y + ":" + NatToString(t.dstPort) + "/" + t.protocol);
      SlashIsAmbiguous(t.srcIp, t.srcPort, x, p, y, t.dstPort, t.protocol);
      assert |s.dstIp| < |t.dstIp|;
    } else {
      var x, p, y := CutDecoy(t.protocol, "/");
      s := FiveTuple(t.srcIp, t.srcPort, t.dstIp + ":" + NatToString(t.dstPort) + "/" + x, p, y);
      SlashIsAmbiguous(t.srcIp, t.srcPort, t.dstIp, t.dstPort, x, p, y);
      assert |s.dstIp| > |t.dstIp|;
    }
  }

  /** A tuple shares its key with another one exactly when it is ambiguous. */
  lemma KeyIsShared(t: FiveTuple)
    ensures (exists s :: s != t && ToKey(s) == ToKey(t)) <==> IsAmbiguous(t)
  {
    if IsAmbiguous(t) {
      var s := AmbiguousKeyIsShared(t);
    }
    if s :| s != t && ToKey(s) == ToKey(t) {
      SharedKeyIsAmbiguous(s, t);
    }
  }

  /** A colon alone does no harm: without the characters of the marks a tuple shares its key with nobody. */
  lemma UnmarkedKeysAreOwn(s: FiveTuple, t: FiveTuple)
    requires Free(t.srcIp, '>') && Free(t.dstIp, '>') && Free(t.dstIp, '/') && Free(t.protocol, '/')
    requires ToKey(s) == ToKey(t)
    ensures s == t
  {
    if s != t {
      SharedKeyIsAmbiguous(s, t);
      UnmarkedHasNoDecoy(t.srcIp, "->", 1);
      UnmarkedHasNoDecoy(t.dstIp, "->", 1);
      UnmarkedHasNoDecoy(t.dstIp, "/", 0);
      UnmarkedHasNoDecoy(t.protocol, "/", 0);
    }
  }

  lemma UnmarkedHasNoDecoy(s: string, mark: string, k: nat)
    requires k < |mark| && Free(s, mark[k])
    ensures !HasDecoy(s, mark)
  {
    if HasDecoy(s, mark) {
      var i, j :| 0 <= i < j <= |s| && DecoyAt(s, mark, i, j);
      MarkIsInside(s, mark, j, k);
    }
  }

  lemma MarkIsInside(s: string, mark: string, j: nat, k: nat)
    requires j <= |s| && k < |mark| && mark <= s[j..]
    ensures !Free(s, mark[k])
  {
    assert s[j + k] == s[j..][k] == mark[k];
  }

  /** Distinct tuples without colons in any address have distinct keys, whatever their protocols. */
  lemma ToKeyInjective(s: FiveTuple, t: FiveTuple)
    requires Free(s.srcIp, ':') && Free(s.dstIp, ':')
    requires Free(t.srcIp, ':') && Free(t.dstIp, ':')
    requires ToKey(s) == ToKey(t)
    ensures s == t
  {
    KeyCut(s);
    KeyCut(t);
    CutAtFirst(s.srcIp, t.srcIp, ':', AfterSrcIp(s), AfterSrcIp(t));
    SamePort(s.srcPort, AfterArrow(s), t.srcPort, AfterArrow(t), "->");
    CutAtFirst(s.dstIp, t.dstIp, ':', AfterDstIp(s), AfterDstIp(t));
    SamePort(s.dstPort, s.protocol, t.dstPort, t.protocol, "/");
  }

  /** A concrete pair with one key. */
  lemma ToKeyNotInjective()
    ensures var s := FiveTuple("a:1->b", 2, "c", 3, "TCP");
            var t := FiveTuple("a", 1, "b:2->c", 3, "TCP");
            s != t && ToKey(s) == ToKey(t)
  {
    ArrowIsAmbiguous("a", 1, "b", 2, "c", 3, "TCP");
    assert NatToString(1) == "1" && NatToString(2) == "2";
    assert "a" + ":" + "1" + "->" + "b" == "a:1->b" && "b" + ":" + "2" + "->" + "c" == "b:2->c";
    var s := FiveTuple("a:1->b", 2, "c", 3, "TCP");
    assert s.srcPort == 2;
  }
}
