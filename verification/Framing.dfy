/**
  AMI wire framing (pbxsense_agent/ami.py): reading through a delimiter by peeking, and the packet
  printer and parser.  Streams are sequences of characters; UTF-8 is left out.
 */
module Framing {
  import opened Common

  // ---------------------------------------------------------------- reading through a delimiter

  predicate OccursAt(marker: string, s: string, i: int) {
    0 <= i <= |s| - |marker| && s[i..i + |marker|] == marker
  }

  /** Where the first occurrence begins, searching from i. */
  function FindFrom(marker: string, s: string, i: nat): (r: Option<nat>)
    ensures r.Some? ==> i <= r.value && OccursAt(marker, s, r.value)
    ensures forall k :: i <= k && (r.Some? ==> k < r.value) ==> !OccursAt(marker, s, k)
    decreases |s| - i
  {
    if i + |marker| > |s| then None
    else if s[i..i + |marker|] == marker then Some(i)
    else FindFrom(marker, s, i + 1)
  }

  /** The length of the shortest prefix that ends in the marker, or of everything. */
  function Cut(marker: string, s: string): (n: nat)
    ensures n <= |s|
  {
    match FindFrom(marker, s, 0)
    case Some(i) => i + |marker|
    case None => |s|
  }

  lemma CutIsShortest(marker: string, s: string, i: nat)
    requires OccursAt(marker, s, i) && forall k :: 0 <= k < i ==> !OccursAt(marker, s, k)
    ensures Cut(marker, s) == i + |marker|
  {
  }

  /** A connection: what the peer will still have sent when it closes. */
  class Socket {
    var unread: string

    constructor (stream: string)
      ensures unread == stream
    {
      unread := stream;
    }

    /** A peek shows some of what is unread, at most `limit`, and nothing only at the end;
        how much has arrived is up to the network. */
    method Peek(limit: nat) returns (available: string)
      requires limit > 0
      ensures |available| <= limit && available <= unread
      ensures available == "" <==> unread == ""
    {
      if unread == "" {
        return "";
      }
      var n :| 1 <= n <= limit && n <= |unread|;
      available := unread[..n];
    }

    /** A read of bytes just peeked returns them. */
    method Read(n: nat) returns (data: string)
      requires n <= |unread|
      modifies this
      ensures data == old(unread)[..n] && unread == old(unread)[n..]
    {
      data := unread[..n];
      unread := unread[n..];
    }
  }

  function Tail(s: string, n: nat): string {
    if |s| <= n then s else s[|s| - n..]
  }

  /** The first n characters contain no whole marker. */
  ghost predicate NoMarkerWithin(marker: string, s: string, n: nat) {
    forall k :: 0 <= k <= n - |marker| ==> !OccursAt(marker, s, k)
  }

  /** For every fragmentation: exactly the shortest prefix through the marker, the rest unread. */
  method RecvThrough(socket: Socket, marker: string, chunkSize: nat) returns (chunks: string)
    requires marker != "" && chunkSize > 0
    modifies socket
    ensures var n := Cut(marker, old(socket.unread));
            chunks == old(socket.unread)[..n] && socket.unread == old(socket.unread)[n..]
  {
    hide Cut, OccursAt, NoMarkerWithin;
    ghost var stream := socket.unread;
    chunks := "";
    NothingYet(marker, stream);
    while true
      invariant |chunks| <= |stream| && chunks == stream[..|chunks|] && socket.unread == stream[|chunks|..]
      invariant NoMarkerWithin(marker, stream, |chunks|)
      decreases |socket.unread|
    {
      var available := socket.Peek(chunkSize);
      if available == "" {
        NoMarkerAtAll(marker, stream);
        return;
      }
      var tail := Tail(chunks, |marker| - 1);
      WindowIsSlice(stream, |chunks|, |marker| - 1, available);
      var index := FindFrom(marker, tail + available, 0);
      WindowSearch(marker, stream, |chunks|, |chunks| - |tail|, |chunks| + |available|, index);
      var size := if index.Some? then index.value - |tail| + |marker| else |available|;
      var chunk := socket.Read(size);
      chunks := chunks + chunk;
      assert chunks == stream[..|chunks|];
      if index.Some? {
        return;
      }
    }
  }

  lemma NothingYet(marker: string, s: string)
    requires marker != ""
    ensures NoMarkerWithin(marker, s, 0)
  {
  }

  lemma NoMarkerAtAll(marker: string, s: string)
    requires NoMarkerWithin(marker, s, |s|)
    ensures Cut(marker, s) == |s|
  {
  }

  lemma SliceOccurs(marker: string, s: string, lo: nat, hi: nat, k: nat)
    requires lo <= hi <= |s|
    ensures OccursAt(marker, s[lo..hi], k) <==> k + |marker| <= hi - lo && OccursAt(marker, s, lo + k)
  {
    if k + |marker| <= hi - lo {
      var a, b := s[lo..hi][k..k + |marker|], s[lo + k..lo + k + |marker|];
      assert |a| == |b| && forall j :: 0 <= j < |marker| ==> a[j] == b[j];
    }
  }

  /** The first marker of a window that overlaps the part without markers by less than a marker. */
  lemma WindowSearch(marker: string, stream: string, read: nat, lo: nat, hi: nat, found: Option<nat>)
    requires marker != "" && lo <= read <= hi <= |stream| && NoMarkerWithin(marker, stream, read)
    requires lo == 0 || read - lo == |marker| - 1
    requires found == FindFrom(marker, stream[lo..hi], 0)
    ensures found.Some? ==> found.value + |marker| <= hi - lo && Cut(marker, stream) == lo + found.value + |marker|
    ensures found.None? ==> NoMarkerWithin(marker, stream, hi)
  {
    hide OccursAt, Cut, FindFrom;
    if found.Some? {
      SliceOccurs(marker, stream, lo, hi, found.value);
    }
    forall k | 0 <= k <= hi - |marker| && (found.Some? ==> k < lo + found.value)
      ensures !OccursAt(marker, stream, k)
    {
      if k >= lo {
        SliceOccurs(marker, stream, lo, hi, k - lo);
        assert lo + (k - lo) == k;
      }
    }
    if found.Some? {
      CutIsShortest(marker, stream, lo + found.value);
    }
  }

  lemma WindowIsSlice(s: string, read: nat, n: nat, available: string)
    requires read <= |s| && available <= s[read..]
    ensures var tail := Tail(s[..read], n);
            && |tail| <= read && (|tail| == read <= n || |tail| == n)
            && tail + available == s[read - |tail|..read + |available|]
  {
  }

  // ---------------------------------------------------------------- printing and parsing packets

  datatype Field = Field(key: string, value: string)

  /** What Python's `strip` removes. */
  predicate IsSpace(c: char) {
    || c == ' ' || '\t' <= c <= '\r' || '\U{1c}' <= c <= '\U{1f}' || c == '\U{85}' || c == '\U{a0}'
    || c == '\U{1680}' || '\U{2000}' <= c <= '\U{200a}' || c == '\U{2028}' || c == '\U{2029}'
    || c == '\U{202f}' || c == '\U{205f}' || c == '\U{3000}'
  }

  /** Where Python's `splitlines` ends a line. */
  predicate EndsLine(c: char) {
    '\n' <= c <= '\r' || '\U{1c}' <= c <= '\U{1e}' || c == '\U{85}' || c == '\U{2028}' || c == '\U{2029}'
  }

  /** Tab to carriage return, the four separators, next line, and Unicode's spaces. */
  const SPACES := "\t\n\U{b}\U{c}\r\U{1c}\U{1d}\U{1e}\U{1f} \U{85}\U{a0}\U{1680}"
                  + "\U{2000}\U{2001}\U{2002}\U{2003}\U{2004}\U{2005}\U{2006}\U{2007}\U{2008}\U{2009}\U{200a}"
                  + "\U{2028}\U{2029}\U{202f}\U{205f}\U{3000}"
  const LINE_ENDS := "\n\U{b}\U{c}\r\U{1c}\U{1d}\U{1e}\U{85}\U{2028}\U{2029}"

  lemma IsSpaceMeaning(c: char)
    ensures IsSpace(c) <==> c in SPACES
  {
  }

  /** Every line end is also a space. */
  lemma EndsLineMeaning(c: char)
    ensures EndsLine(c) <==> c in LINE_ENDS
    ensures EndsLine(c) ==> IsSpace(c)
  {
  }

  function StripLeft(s: string): string {
    if s != "" && IsSpace(s[0]) then StripLeft(s[1..]) else s
  }

  function StripRight(s: string): string {
    if s != "" && IsSpace(s[|s| - 1]) then StripRight(s[..|s| - 1]) else s
  }

  function Strip(s: string): string {
    StripRight(StripLeft(s))
  }

  function FirstIndex(p: char -> bool, s: string): (i: nat)
    ensures i <= |s|
    ensures forall k :: 0 <= k < i ==> !p(s[k])
    ensures i < |s| ==> p(s[i])
  {
    if s == "" || p(s[0]) then 0 else 1 + FirstIndex(p, s[1..])
  }

  function SplitLines(s: string): seq<string>
    decreases |s|
  {
    if s == "" then []
    else
      var i := FirstIndex(EndsLine, s);
      if i == |s| then [s]
      else
        var next := if s[i] == '\r' && i + 1 < |s| && s[i + 1] == '\n' then i + 2 else i + 1;
        [s[..i]] + SplitLines(s[next..])
  }

  predicate IsColon(c: char) { c == ':' }

  /** The field on a line, if it has a colon. */
  function ParseLine(line: string): Option<Field> {
    var i := FirstIndex(IsColon, line);
    if i == |line| then None else Some(Field(Strip(line[..i]), Strip(line[i + 1..])))
  }

  /** The dictionary of the lines' fields; a repeated key keeps its last value. */
  function FieldMap(lines: seq<string>): map<string, string> {
    if lines == [] then map[]
    else
      var before := FieldMap(lines[..|lines| - 1]);
      match ParseLine(lines[|lines| - 1])
      case Some(f) => before[f.key := f.value]
      case None => before
  }

  function PrintField(f: Field): string {
    f.key + ": " + f.value + "\r\n"
  }

  function PrintFields(fields: seq<Field>): string {
    if fields == [] then "" else PrintField(fields[0]) + PrintFields(fields[1..])
  }

  /** The payload of `_send_action`. */
  function Print(fields: seq<Field>): string {
    PrintFields(fields) + "\r\n"
  }

  const PACKET_END: string := "\r\n\r\n"

  /** Survives `strip` and contains no line end. */
  predicate Clean(s: string) {
    && (forall i :: 0 <= i < |s| ==> !EndsLine(s[i]))
    && (s != "" ==> !IsSpace(s[0]) && !IsSpace(s[|s| - 1]))
  }

  predicate CleanField(f: Field) {
    Clean(f.key) && Clean(f.value) && forall i :: 0 <= i < |f.key| ==> f.key[i] != ':'
  }

  /** A dictionary to be sent: clean, at least one entry, and no key twice. */
  predicate Sendable(fields: seq<Field>) {
    && fields != []
    && (forall i :: 0 <= i < |fields| ==> CleanField(fields[i]))
    && (forall i, j :: 0 <= i < j < |fields| ==> fields[i].key != fields[j].key)
  }

  function AsMap(fields: seq<Field>): map<string, string> {
    if fields == [] then map[]
    else AsMap(fields[..|fields| - 1])[fields[|fields| - 1].key := fields[|fields| - 1].value]
  }

  /** Characters of a stream that belong to no line end. */
  predicate Plain(s: string) {
    forall i :: 0 <= i < |s| ==> !EndsLine(s[i])
  }

  function Line(f: Field): string {
    f.key + ": " + f.value
  }

  lemma StripClean(s: string)
    requires Clean(s)
    ensures Strip(s) == s && Strip(" " + s) == s
  {
  }

  lemma ParsePrintedLine(f: Field)
    requires CleanField(f)
    ensures Plain(Line(f)) && Line(f) != "" && ParseLine(Line(f)) == Some(f)
  {
    hide Strip, FirstIndex;
    var line, i := Line(f), FirstIndex(IsColon, Line(f));
    assert line[|f.key|] == ':' && forall k :: 0 <= k < |f.key| ==> line[k] == f.key[k];
    assert i == |f.key|;
    assert line[..i] == f.key && line[i + 1..] == " " + f.value;
    StripClean(f.key);
    StripClean(f.value);
  }

  lemma SplitFirstLine(line: string, rest: string)
    requires Plain(line)
    ensures SplitLines(line + "\r\n" + rest) == [line] + SplitLines(rest)
  {
    var s := line + "\r\n" + rest;
    assert s[|line|] == '\r' && s[|line| + 1] == '\n' && forall k :: 0 <= k < |line| ==> s[k] == line[k];
    assert FirstIndex(EndsLine, s) == |line|;
    assert s[..|line|] == line && s[|line| + 2..] == rest;
  }

  function Lines(fields: seq<Field>): (lines: seq<string>)
    ensures |lines| == |fields| && forall i :: 0 <= i < |fields| ==> lines[i] == Line(fields[i])
  {
    seq(|fields|, i requires 0 <= i < |fields| => Line(fields[i]))
  }

  lemma PrintUnfolds(fields: seq<Field>)
    requires fields != []
    ensures Print(fields) == Line(fields[0]) + "\r\n" + Print(fields[1..])
  {
  }

  lemma {:induction false} SplitPrinted(fields: seq<Field>)
    requires forall i :: 0 <= i < |fields| ==> CleanField(fields[i])
    ensures SplitLines(Print(fields)) == Lines(fields) + [""]
  {
    hide SplitLines, Line, Print, Plain, CleanField;
    if fields == [] {
      SplitEnd();
      assert Lines(fields) == [];
    } else {
      ParsePrintedLine(fields[0]);
      PrintUnfolds(fields);
      SplitFirstLine(Line(fields[0]), Print(fields[1..]));
      SplitPrinted(fields[1..]);
      assert Lines(fields) == [Line(fields[0])] + Lines(fields[1..]);
      assert Lines(fields) + [""] == [Line(fields[0])] + (Lines(fields[1..]) + [""]);
    }
  }

  lemma SplitEnd()
    ensures SplitLines(Print([])) == [""]
  {
  }

  lemma {:induction false} FieldMapOfLines(fields: seq<Field>)
    requires forall i :: 0 <= i < |fields| ==> CleanField(fields[i])
    ensures FieldMap(Lines(fields)) == AsMap(fields)
  {
    if fields != [] {
      hide ParseLine, CleanField, Line;
      var n := |fields| - 1;
      var front, lines := fields[..n], Lines(fields);
      FieldMapOfLines(front);
      ParsePrintedLine(fields[n]);
      assert |lines| == n + 1 && lines[n] == Line(fields[n]);
      assert lines[..n] == Lines(front);
    }
  }

  /** The parser undoes the printer. */
  lemma ParseUndoesPrint(fields: seq<Field>)
    requires forall i :: 0 <= i < |fields| ==> CleanField(fields[i])
    ensures FieldMap(SplitLines(Print(fields))) == AsMap(fields)
  {
    SplitPrinted(fields);
    FieldMapOfLines(fields);
    assert (Lines(fields) + [""])[..|fields|] == Lines(fields);
  }

  lemma EndChars(s: string, k: nat)
    ensures OccursAt(PACKET_END, s, k)
       <==> k + 4 <= |s| && s[k] == '\r' && s[k + 1] == '\n' && s[k + 2] == '\r' && s[k + 3] == '\n'
  {
  }

  /** No end marker begins within a non-empty plain line that another such line, or the last one, follows. */
  lemma NoEndInLine(line: string, after: string, k: nat)
    requires Plain(line) && k <= |line| + 1 && (after != "" ==> after[0] != '\r')
    ensures !OccursAt(PACKET_END, line + "\r\n" + after, k)
  {
    var s := line + "\r\n" + after;
    EndChars(s, k);
    assert s[|line|] == '\r' && s[|line| + 1] == '\n';
    if k < |line| {
      assert s[k] == line[k];
    } else if k == |line| && after != "" {
      assert s[k + 2] == after[0];
    }
  }

  lemma AfterLine(line: string, after: string, k: nat)
    requires k >= |line| + 2
    ensures OccursAt(PACKET_END, line + "\r\n" + after, k) <==> OccursAt(PACKET_END, after, k - |line| - 2)
  {
  }

  lemma {:induction false} LastFourAreEnd(fields: seq<Field>)
    requires fields != []
    ensures |Print(fields)| >= 4 && Print(fields)[|Print(fields)| - 4..] == PACKET_END
  {
    PrintUnfolds(fields);
    if |fields| == 1 {
      assert Print(fields) == Line(fields[0]) + PACKET_END;
    } else {
      LastFourAreEnd(fields[1..]);
    }
  }

  /** The first line begins with a character that ends no line. */
  lemma BeginsPlain(fields: seq<Field>)
    requires fields != [] && CleanField(fields[0])
    ensures Print(fields) != "" && !EndsLine(Print(fields)[0])
  {
  }

  lemma {:induction false} NoEarlyEnd(fields: seq<Field>, rest: string, k: nat)
    requires fields != [] && forall i :: 0 <= i < |fields| ==> CleanField(fields[i])
    requires k < |Print(fields)| - 4
    ensures !OccursAt(PACKET_END, Print(fields) + rest, k)
  {
    hide OccursAt, CleanField, Plain, Print, PrintFields, Line;
    var line, after := Line(fields[0]), Print(fields[1..]) + rest;
    PrintUnfoldsBefore(fields, rest);
    ParsePrintedLine(fields[0]);
    if |fields| == 1 {
      NoEndBeforeEmptyLine(line, rest, k);
    } else {
      BeginsPlain(fields[1..]);
      if k <= |line| + 1 {
        NoEndInLine(line, after, k);
      } else {
        NoEarlyEnd(fields[1..], rest, k - |line| - 2);
        AfterLine(line, after, k);
      }
    }
  }

  lemma PrintUnfoldsBefore(fields: seq<Field>, rest: string)
    requires fields != []
    ensures Print(fields) + rest == Line(fields[0]) + "\r\n" + (Print(fields[1..]) + rest)
    ensures |Print(fields)| == |Line(fields[0])| + 2 + |Print(fields[1..])|
    ensures |fields| == 1 ==> Print(fields[1..]) == "\r\n"
  {
  }

  lemma NoEndBeforeEmptyLine(line: string, rest: string, k: nat)
    requires Plain(line) && k < |line|
    ensures !OccursAt(PACKET_END, line + "\r\n" + ("\r\n" + rest), k)
  {
    var s := line + "\r\n" + ("\r\n" + rest);
    EndChars(s, k);
    assert s[k] == line[k];
  }

  /** In a printed packet the end marker occurs only at the end, whatever follows. */
  lemma PacketEndsItself(fields: seq<Field>, rest: string)
    requires fields != [] && forall i :: 0 <= i < |fields| ==> CleanField(fields[i])
    ensures Cut(PACKET_END, Print(fields) + rest) == |Print(fields)|
  {
    LastFourAreEnd(fields);
    var s, end := Print(fields) + rest, |Print(fields)| - 4;
    assert s[end..end + 4] == PACKET_END;
    forall k: nat | k < end ensures !OccursAt(PACKET_END, s, k) {
      NoEarlyEnd(fields, rest, k);
    }
    CutIsShortest(PACKET_END, s, end);
  }

  /** An empty dictionary is not framed: its payload is swallowed by the packet after it. */
  lemma EmptyPacketIsNotFramed(fields: seq<Field>, rest: string)
    requires Sendable(fields)
    ensures Cut(PACKET_END, Print([]) + (Print(fields) + rest)) == 2 + |Print(fields)|
  {
    var packet := Print(fields) + rest;
    var s, end := "" + "\r\n" + packet, |Print(fields)| - 2;
    assert Print([]) + packet == s;
    BeginsPlain(fields);
    LastFourAreEnd(fields);
    assert s[end..end + 4] == PACKET_END;
    forall k: nat | k < end ensures !OccursAt(PACKET_END, s, k) {
      if k < 2 {
        NoEndInLine("", packet, k);
      } else {
        AfterLine("", packet, k);
        NoEarlyEnd(fields, rest, k - 2);
      }
    }
    CutIsShortest(PACKET_END, s, end);
  }

  // ---------------------------------------------------------------- packets over a socket

  datatype Packet = Fields(fields: map<string, string>) | ConnectionClosed

  /** `_read_packet`: cut the next packet off the stream and parse it. */
  method ReadPacket(socket: Socket) returns (packet: Packet)
    modifies socket
    ensures var n := Cut(PACKET_END, old(socket.unread));
            && socket.unread == old(socket.unread)[n..]
            && packet == if n == 0 then ConnectionClosed else Fields(FieldMap(SplitLines(old(socket.unread)[..n])))
  {
    hide Cut;
    var raw := RecvThrough(socket, PACKET_END, 4096);
    if raw == "" {
      return ConnectionClosed;
    }
    var fields := ParseLines(SplitLines(raw));
    packet := Fields(fields);
  }

  /** The loop over the lines of a packet. */
  method ParseLines(lines: seq<string>) returns (fields: map<string, string>)
    ensures fields == FieldMap(lines)
  {
    hide ParseLine;
    fields := map[];
    for i := 0 to |lines|
      invariant fields == FieldMap(lines[..i])
    {
      assert lines[..i + 1][..i] == lines[..i];
      var field := ParseLine(lines[i]);
      if field.Some? {
        fields := fields[field.value.key := field.value.value];
      }
    }
    assert lines[..|lines|] == lines;
  }

  function PrintAll(packets: seq<seq<Field>>): string {
    if packets == [] then "" else Print(packets[0]) + PrintAll(packets[1..])
  }

  /** Any sequence of sendable dictionaries, printed back to back, is read back as it was, for every
      fragmentation of the stream, with what follows left unread. */
  method ReadPackets(socket: Socket, ghost packets: seq<seq<Field>>, ghost rest: string, count: nat)
    returns (read: seq<Packet>)
    requires |packets| == count && forall i :: 0 <= i < count ==> Sendable(packets[i])
    requires socket.unread == PrintAll(packets) + rest
    modifies socket
    ensures |read| == count && forall i :: 0 <= i < count ==> read[i] == Fields(AsMap(packets[i]))
    ensures socket.unread == rest
  {
    hide Cut, Print, SplitLines, FieldMap, AsMap, CleanField;
    read := [];
    for i := 0 to count
      invariant |read| == i && forall k :: 0 <= k < i ==> read[k] == Fields(AsMap(packets[k]))
      invariant socket.unread == PrintAll(packets[i..]) + rest
    {
      ghost var following := PrintAll(packets[i..][1..]) + rest;
      assert packets[i..][1..] == packets[i + 1..];
      assert socket.unread == Print(packets[i]) + following;
      PacketEndsItself(packets[i], following);
      LastFourAreEnd(packets[i]);
      ParseUndoesPrint(packets[i]);
      assert (Print(packets[i]) + following)[..|Print(packets[i])|] == Print(packets[i]);
      var packet := ReadPacket(socket);
      read := read + [packet];
    }
  }
}
