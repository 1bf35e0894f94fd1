/** The comma-separated node lists of the lab configuration: printing and parsing. */
module NodeList {
  import opened Options
  import opened Strings
  import opened Decimals

  type Int64 = i: int | -0x8000_0000_0000_0000 <= i < 0x8000_0000_0000_0000

  datatype Node = Node(host: string, port: Int64, role: string)

  // ----- Numbers, as %d scans them -----

  /** The spaces before a number; a newline among them is an error. */
  function SkipSpace(s: string): Option<string> {
    if s == "" then Some(s)
    else if s[0] == '\n' then None
    else if IsSpace(s[0]) then SkipSpace(s[1..])
    else Some(s)
  }

  function DigitRun(s: string): (k: nat)
    ensures k <= |s| && (forall i :: 0 <= i < k ==> IsDigit(s[i])) && (k < |s| ==> !IsDigit(s[k]))
  {
    if s == "" || !IsDigit(s[0]) then 0 else 1 + DigitRun(s[1..])
  }

  function ScanDigits(u: string, negative: bool): Int64 {
    var k := DigitRun(u);
    if k == 0 then 0
    else
      var size: int := Value(u[..k]);
      var v: int := if negative then -size else size;
      if -0x8000_0000_0000_0000 <= v < 0x8000_0000_0000_0000 then v else 0
  }

  /** What Sscanf with %d leaves in a zero variable: 0 if there is no number or it overflows. */
  function ScanInt(s: string): Int64 {
    match SkipSpace(s)
    case None => 0
    case Some(t) =>
      if t != "" && (t[0] == '-' || t[0] == '+') then ScanDigits(t[1..], t[0] == '-') else ScanDigits(t, false)
  }

  lemma {:induction false} DigitRunAll(s: string)
    requires forall i :: 0 <= i < |s| ==> IsDigit(s[i])
    ensures DigitRun(s) == |s|
  {
    if s != "" { DigitRunAll(s[1..]); }
  }

  lemma ScanDigitsOf(n: nat, negative: bool)
    requires n < 0x8000_0000_0000_0000 || (negative && n == 0x8000_0000_0000_0000)
    ensures ScanDigits(Digits(n), negative) == if negative then -(n as int) else n
  {
    var ds := Digits(n);
    DigitRunAll(ds);
    assert ds[..|ds|] == ds;
    ValueOfDigits(n);
  }

  lemma SkipNothing(s: string)
    requires s != "" && (s[0] == '-' || IsDigit(s[0]))
    ensures SkipSpace(s) == Some(s)
  {
  }

  lemma ScanDecimal(i: Int64)
    ensures ScanInt(Decimal(i)) == i
  {
    var s := Decimal(i);
    SkipNothing(s);
    if i < 0 {
      var magnitude: int := i;
      assert s[1..] == Digits(-magnitude);
      ScanDigitsOf(-magnitude, true);
    } else {
      assert IsDigit(s[0]);
      ScanDigitsOf(i, false);
    }
  }

  predicate Blanks(s: string) { forall i :: 0 <= i < |s| ==> IsSpace(s[i]) && s[i] != '\n' }

  /** Blanks up to a, perhaps a plus sign, and the longest run of digits from b to c. */
  predicate PortText(s: string, a: nat, b: nat, c: nat) {
    && a <= b < c <= |s| && Blanks(s[..a])
    && (b == a || (b == a + 1 && s[a] == '+'))
    && (forall i :: b <= i < c ==> IsDigit(s[i])) && (c < |s| ==> !IsDigit(s[c]))
  }

  lemma {:induction false} SkipsBlanks(s: string, a: nat)
    requires a <= |s| && Blanks(s[..a]) && (a < |s| ==> !IsSpace(s[a]))
    ensures SkipSpace(s) == Some(s[a..])
  {
    if a > 0 {
      assert s[..a][0] == s[0];
      assert s[1..][..a - 1] == s[..a][1..];
      SkipsBlanks(s[1..], a - 1);
    }
  }

  lemma {:induction false} SkipStops(s: string) returns (a: nat)
    ensures a <= |s| && Blanks(s[..a]) && (a < |s| ==> !IsSpace(s[a]) || s[a] == '\n')
    ensures SkipSpace(s) == if a < |s| && s[a] == '\n' then None else Some(s[a..])
  {
    if s == "" || s[0] == '\n' || !IsSpace(s[0]) {
      a := 0;
    } else {
      var k := SkipStops(s[1..]);
      a := k + 1;
      assert s[..a] == [s[0]] + s[1..][..k];
    }
  }

  lemma {:induction false} DigitRunIs(s: string, k: nat)
    requires k <= |s| && (forall i :: 0 <= i < k ==> IsDigit(s[i])) && (k < |s| ==> !IsDigit(s[k]))
    ensures DigitRun(s) == k
  {
    if k > 0 { DigitRunIs(s[1..], k - 1); }
  }

  lemma PortScanned(s: string, a: nat, b: nat, c: nat)
    requires PortText(s, a, b, c)
    ensures ScanInt(s) == if Value(s[b..c]) < 0x8000_0000_0000_0000 then Value(s[b..c]) else 0
  {
    hide SkipSpace, Value, DigitRun;
    SkipsBlanks(s, a);
    assert s[b..][..c - b] == s[b..c];
    assert forall i :: 0 <= i < c - b ==> s[b..][i] == s[b + i];
    DigitRunIs(s[b..], c - b);
    if b == a + 1 { assert s[a..][1..] == s[b..]; }
  }

  lemma PortFound(s: string) returns (a: nat, b: nat, c: nat)
    requires ScanInt(s) > 0
    ensures PortText(s, a, b, c)
  {
    hide SkipSpace, Value, DigitRun;
    a := SkipStops(s);
    b := if s[a] == '+' then a + 1 else a;
    assert b == a + 1 ==> s[a..][1..] == s[b..];
    var k := DigitRun(s[b..]);
    c := b + k;
    assert forall i :: b <= i < c ==> s[i] == s[b..][i - b];
  }

  ghost predicate IsPort(s: string, v: nat) {
    v < 0x8000_0000_0000_0000 &&
    exists a: nat, b: nat, c: nat :: PortText(s, a, b, c) && Value(s[b..c]) == v
  }

  /** A positive number is scanned exactly from such a text, and none that overflows. */
  lemma ScansPort(s: string, v: nat)
    requires v > 0
    ensures ScanInt(s) == v <==> IsPort(s, v)
  {
    hide ScanInt;
    if ScanInt(s) == v {
      var a, b, c := PortFound(s);
      PortScanned(s, a, b, c);
    }
    if IsPort(s, v) {
      var a: nat, b: nat, c: nat :| PortText(s, a, b, c) && Value(s[b..c]) == v;
      PortScanned(s, a, b, c);
    }
  }

  // ----- One address -----

  /** The position of the last c, or -1. */
  function LastIndexOf(s: string, c: char): (i: int)
    ensures -1 <= i < |s| && (i >= 0 ==> s[i] == c) && forall j :: i < j < |s| ==> s[j] != c
  {
    if s == "" then -1 else if s[|s| - 1] == c then |s| - 1 else LastIndexOf(s[..|s| - 1], c)
  }

  function SplitHostPort(addr: string, defaultPort: Int64): (string, Int64) {
    var i := LastIndexOf(addr, ':');
    if i > 0 && ScanInt(addr[i + 1..]) > 0 then (addr[..i], ScanInt(addr[i + 1..])) else (addr, defaultPort)
  }

  /** The port is what stands behind the last colon, if that is not the first character and a
      positive number follows; otherwise the whole text is the host, with the default port. */
  lemma SplitsAtLastColon(addr: string, i: nat, defaultPort: Int64)
    requires i < |addr| && addr[i] == ':' && forall j :: i < j < |addr| ==> addr[j] != ':'
    ensures
      var port := ScanInt(addr[i + 1..]);
      SplitHostPort(addr, defaultPort) == if i > 0 && port > 0 then (addr[..i], port) else (addr, defaultPort)
  {
    LastIndexIs(addr, ':', i);
  }

  lemma NoColonNoPort(addr: string, defaultPort: Int64)
    requires ':' !in addr
    ensures SplitHostPort(addr, defaultPort) == (addr, defaultPort)
  {
  }

  function Printed(n: Node): string { n.host + ":" + Decimal(n.port) }

  lemma LastIndexIs(s: string, c: char, i: nat)
    requires i < |s| && s[i] == c && forall j :: i < j < |s| ==> s[j] != c
    ensures LastIndexOf(s, c) == i
  {
  }

  lemma ColonParts(head: string, tail: string)
    ensures (head + ":" + tail)[|head|] == ':'
    ensures (head + ":" + tail)[..|head|] == head
    ensures (head + ":" + tail)[|head| + 1..] == tail
  {
  }

  lemma LastColon(head: string, tail: string)
    requires ':' !in tail
    ensures LastIndexOf(head + ":" + tail, ':') == |head|
  {
    var s := head + ":" + tail;
    ColonParts(head, tail);
    forall j | |head| < j < |s| ensures s[j] != ':' {
      assert s[j] == tail[j - |head| - 1];
    }
    LastIndexIs(s, ':', |head|);
  }

  lemma {:induction false} TrimLeftConcat(s: string, t: string)
    requires t != "" && !IsSpace(t[0])
    ensures TrimLeft(s + t) == TrimLeft(s) + t
  {
    if s == "" {
      assert s + t == t;
    } else if IsSpace(s[0]) {
      TrimLeftConcat(s[1..], t);
      assert (s + t)[1..] == s[1..] + t;
    }
  }

  lemma {:induction false} TrimLeftShortens(s: string)
    ensures |TrimLeft(s)| <= |s| && (TrimLeft(s) == s <==> s == "" || !IsSpace(s[0]))
  {
    if s != "" && IsSpace(s[0]) { TrimLeftShortens(s[1..]); }
  }

  /** Of what was printed, trimming only removes what the host starts with. */
  lemma TrimPrinted(n: Node)
    ensures TrimSpace(Printed(n)) == TrimLeft(n.host) + ":" + Decimal(n.port)
  {
    var tail := ":" + Decimal(n.port);
    assert Printed(n) == n.host + tail && TrimLeft(n.host) + ":" + Decimal(n.port) == TrimLeft(n.host) + tail;
    TrimLeftConcat(n.host, tail);
    EndsInDigit(TrimLeft(n.host) + tail);
  }

  lemma EndsInDigit(s: string)
    requires s != "" && IsDigit(s[|s| - 1])
    ensures TrimRight(s) == s
  {
  }

  /** The host survives trimming and is no separator, and the port counts as one. */
  predicate Printable(n: Node) {
    n.host != "" && !IsSpace(n.host[0]) && n.port >= 1
  }

  /** One printed node parses back exactly if its host is non-empty without leading space and
      its port positive; colons and inner or trailing spaces do no harm. */
  lemma PrintedParsesIff(n: Node, defaultPort: Int64)
    ensures TrimSpace(Printed(n)) != ""
    ensures SplitHostPort(TrimSpace(Printed(n)), defaultPort) == (n.host, n.port) <==> Printable(n)
  {
    var head := TrimLeft(n.host);
    var s := head + ":" + Decimal(n.port);
    TrimPrinted(n);
    TrimLeftShortens(n.host);
    TrimLeftStarts(n.host);
    LastColon(head, Decimal(n.port));
    ColonParts(head, Decimal(n.port));
    ScanDecimal(n.port);
    assert s[0] == if head == "" then ':' else head[0];
    TrimLeftShortens(s);
    assert TrimLeft(s) == s && |s| > |head|;
    assert s != n.host;
  }

  // ----- Lists -----

  function Accepted(piece: string, port: Int64, role: string): seq<Node> {
    var h := TrimSpace(piece);
    if h == "" then []
    else
      var hp := SplitHostPort(h, port);
      [Node(hp.0, hp.1, role)]
  }

  function Gathered<S, T>(f: S -> seq<T>, xs: seq<S>): seq<T> {
    if xs == [] then [] else Gathered(f, xs[..|xs| - 1]) + f(xs[|xs| - 1])
  }

  function Parsed(pieces: seq<string>, port: Int64, role: string): seq<Node> {
    Gathered((piece: string) => Accepted(piece, port, role), pieces)
  }

  method HostsToNodes(csv: string, port: Int64, role: string) returns (out: seq<Node>)
    ensures out == Parsed(Split(csv, ','), port, role)
  {
    var pieces := Split(csv, ',');
    out := [];
    for i := 0 to |pieces|
      invariant out == Parsed(pieces[..i], port, role)
    {
      assert pieces[..i + 1][..i] == pieces[..i];
      var h := TrimSpace(pieces[i]);
      if h == "" {
        continue;
      }
      var hp := SplitHostPort(h, port);
      out := out + [Node(hp.0, hp.1, role)];
    }
    assert pieces[..|pieces|] == pieces;
  }

  function PrintedAll(nodes: seq<Node>): (parts: seq<string>)
    ensures |parts| == |nodes| && forall i :: 0 <= i < |nodes| ==> parts[i] == Printed(nodes[i])
  {
    if nodes == [] then [] else PrintedAll(nodes[..|nodes| - 1]) + [Printed(nodes[|nodes| - 1])]
  }

  method NodesCsv(nodes: seq<Node>) returns (csv: string)
    ensures csv == Join(PrintedAll(nodes), ',')
  {
    var parts: seq<string> := [];
    for i := 0 to |nodes|
      invariant parts == PrintedAll(nodes[..i])
    {
      assert nodes[..i + 1][..i] == nodes[..i];
      parts := parts + [nodes[i].host + ":" + Decimal(nodes[i].port)];
    }
    assert nodes[..|nodes|] == nodes;
    csv := Join(parts, ',');
  }

  predicate SameAddress(a: Node, b: Node) { a.host == b.host && a.port == b.port }

  /** The same hosts and ports in the same order. */
  predicate SameAddresses(a: seq<Node>, b: seq<Node>) {
    |a| == |b| && forall i :: 0 <= i < |a| ==> SameAddress(a[i], b[i])
  }

  predicate CommaFree(nodes: seq<Node>) { forall i :: 0 <= i < |nodes| ==> ',' !in nodes[i].host }

  lemma AcceptedPrinted(n: Node, port: Int64, role: string)
    ensures |Accepted(Printed(n), port, role)| == 1
    ensures SameAddress(Accepted(Printed(n), port, role)[0], n) <==> Printable(n)
  {
    PrintedParsesIff(n, port);
    var hp := SplitHostPort(TrimSpace(Printed(n)), port);
    assert hp == (n.host, n.port) <==> hp.0 == n.host && hp.1 == n.port;
  }

  lemma {:induction false} GatheredOneEach<S, T>(f: S -> seq<T>, xs: seq<S>)
    requires forall i :: 0 <= i < |xs| ==> |f(xs[i])| == 1
    ensures |Gathered(f, xs)| == |xs| && forall i :: 0 <= i < |xs| ==> Gathered(f, xs)[i] == f(xs[i])[0]
  {
    if xs != [] { GatheredOneEach(f, xs[..|xs| - 1]); }
  }

  lemma ParsedPrinted(nodes: seq<Node>, port: Int64, role: string)
    ensures |Parsed(PrintedAll(nodes), port, role)| == |nodes|
    ensures forall i :: 0 <= i < |nodes| ==>
      (SameAddress(Parsed(PrintedAll(nodes), port, role)[i], nodes[i]) <==> Printable(nodes[i]))
  {
    forall i | 0 <= i < |nodes|
      ensures |Accepted(PrintedAll(nodes)[i], port, role)| == 1
      ensures SameAddress(Accepted(PrintedAll(nodes)[i], port, role)[0], nodes[i]) <==> Printable(nodes[i])
    {
      AcceptedPrinted(nodes[i], port, role);
    }
    GatheredOneEach((piece: string) => Accepted(piece, port, role), PrintedAll(nodes));
  }

  lemma PrintedWithoutComma(n: Node)
    requires ',' !in n.host
    ensures ',' !in Printed(n)
  {
    var tail := Decimal(n.port);
    assert ',' !in tail by { assert forall j :: 0 <= j < |tail| ==> tail[j] == '-' || IsDigit(tail[j]); }
  }

  lemma SplitPrinted(nodes: seq<Node>, port: Int64, role: string)
    requires CommaFree(nodes)
    ensures Parsed(Split(Join(PrintedAll(nodes), ','), ','), port, role) == Parsed(PrintedAll(nodes), port, role)
  {
    var parts := PrintedAll(nodes);
    if nodes == [] {
      assert Split("", ',') == [""];
      assert Accepted("", port, role) == [];
      assert Parsed([""], port, role) == Parsed([""][..0], port, role) + Accepted("", port, role);
    } else {
      forall i | 0 <= i < |parts| ensures ',' !in parts[i] { PrintedWithoutComma(nodes[i]); }
      SplitJoin(parts, ',');
    }
  }

  lemma {:induction false} TrimLeftKeepsOut(s: string, c: char)
    requires c !in s
    ensures c !in TrimLeft(s)
  {
    if s != "" && IsSpace(s[0]) { TrimLeftKeepsOut(s[1..], c); }
  }

  lemma {:induction false} TrimRightKeepsOut(s: string, c: char)
    requires c !in s
    ensures c !in TrimRight(s)
  {
    if s != "" && IsSpace(s[|s| - 1]) { TrimRightKeepsOut(s[..|s| - 1], c); }
  }

  predicate WellParsed(n: Node, port: Int64, role: string) {
    && n.host != "" && !IsSpace(n.host[0]) && ',' !in n.host
    && (n.port >= 1 || n.port == port) && n.role == role
  }

  lemma AcceptedClean(piece: string, port: Int64, role: string)
    requires ',' !in piece
    ensures
      forall i :: 0 <= i < |Accepted(piece, port, role)| ==>
        WellParsed(Accepted(piece, port, role)[i], port, role)
  {
    TrimLeftKeepsOut(piece, ',');
    TrimRightKeepsOut(TrimLeft(piece), ',');
    TrimSpaceTrims(piece);
  }

  lemma {:induction false} ParsedClean(pieces: seq<string>, port: Int64, role: string)
    requires forall i :: 0 <= i < |pieces| ==> ',' !in pieces[i]
    ensures forall i :: 0 <= i < |Parsed(pieces, port, role)| ==> WellParsed(Parsed(pieces, port, role)[i], port, role)
  {
    if pieces != [] {
      ParsedClean(pieces[..|pieces| - 1], port, role);
      AcceptedClean(pieces[|pieces| - 1], port, role);
      assert Parsed(pieces, port, role)
        == Parsed(pieces[..|pieces| - 1], port, role) + Accepted(pieces[|pieces| - 1], port, role);
    }
  }

  /** A parsed list has no commas left, so a list with one does not come back. */
  lemma CommaBreaks(nodes: seq<Node>, csv: string, port: Int64, role: string)
    requires SameAddresses(Parsed(Split(csv, ','), port, role), nodes)
    ensures CommaFree(nodes)
  {
    SplitPiecesClean(csv, ',');
    ParsedClean(Split(csv, ','), port, role);
    var parsed := Parsed(Split(csv, ','), port, role);
    forall i | 0 <= i < |nodes| ensures ',' !in nodes[i].host {
      assert WellParsed(parsed[i], port, role) && SameAddress(parsed[i], nodes[i]);
    }
  }

  lemma CommaFreeRoundTripIff(nodes: seq<Node>, port: Int64, role: string)
    requires CommaFree(nodes)
    ensures SameAddresses(Parsed(Split(Join(PrintedAll(nodes), ','), ','), port, role), nodes)
      <==> forall i :: 0 <= i < |nodes| ==> Printable(nodes[i])
  {
    SplitPrinted(nodes, port, role);
    ParsedPrinted(nodes, port, role);
  }

  /** Printing and parsing a list gives back its hosts and ports exactly when every host is
      non-empty, has no comma and no leading space, and every port is positive. */
  lemma RoundTripIff(nodes: seq<Node>, port: Int64, role: string)
    ensures SameAddresses(Parsed(Split(Join(PrintedAll(nodes), ','), ','), port, role), nodes)
      <==> CommaFree(nodes) && forall i :: 0 <= i < |nodes| ==> Printable(nodes[i])
  {
    var csv := Join(PrintedAll(nodes), ',');
    if SameAddresses(Parsed(Split(csv, ','), port, role), nodes) { CommaBreaks(nodes, csv, port, role); }
    if CommaFree(nodes) { CommaFreeRoundTripIff(nodes, port, role); }
  }

  /** With a positive default port whatever was parsed once survives printing and parsing,
      roles included. */
  lemma ParsedRoundTrips(csv: string, port: Int64, role: string)
    requires port >= 1
    ensures var nodes := Parsed(Split(csv, ','), port, role);
      Parsed(Split(Join(PrintedAll(nodes), ','), ','), port, role) == nodes
  {
    var nodes := Parsed(Split(csv, ','), port, role);
    var again := Split(Join(PrintedAll(nodes), ','), ',');
    SplitPiecesClean(csv, ',');
    ParsedClean(Split(csv, ','), port, role);
    RoundTripIff(nodes, port, role);
    SplitPiecesClean(Join(PrintedAll(nodes), ','), ',');
    ParsedClean(again, port, role);
  }
}
