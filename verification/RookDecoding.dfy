/** Reading the rook-ceph text back: an independent line-by-line reader recovers exactly the recorded
    disks, whatever order the map was visited in. */
module RookDecoding {
  import opened Basics
  import opened RookValues

  // ---- The reader -------------------------------------------------------------------------

  predicate OneLine(s: string) { '\n' !in s }

  /** The finished lines of a text, without their newlines. */
  function Lines(s: string): seq<string> {
    if s == "" then []
    else
      var n := |s| - 1;
      var before := Lines(s[..n]);
      if s[n] == '\n' then before + [Tail(s[..n])] else before
  }

  /** What stands after the last newline. */
  function Tail(s: string): (t: string)
    ensures OneLine(t)
  {
    if s == "" || s[|s| - 1] == '\n' then "" else Tail(s[..|s| - 1]) + [s[|s| - 1]]
  }

  const NODE_START := "    - name: \"worker-"
  const DISK_START := "      - name: "

  datatype Reader = Reader(disks: map<string, seq<string>>, node: string)

  /** A node line opens a node; a disk line adds to the open node; other lines say nothing. */
  function ReadLine(r: Reader, line: string): Reader {
    if NODE_START <= line && |line| > |NODE_START| then
      var node := line[|NODE_START|..|line| - 1];
      Reader(r.disks[node := []], node)
    else if DISK_START <= line && r.node in r.disks then
      r.(disks := r.disks[r.node := r.disks[r.node] + [line[|DISK_START|..]]])
    else r
  }

  function ReadLines(r: Reader, lines: seq<string>): Reader {
    if lines == [] then r
    else
      var n := |lines| - 1;
      ReadLine(ReadLines(r, lines[..n]), lines[n])
  }

  function Decode(text: string): map<string, seq<string>> {
    ReadLines(Reader(map[], ""), Lines(text)).disks
  }

  // ---- Lines ------------------------------------------------------------------------------

  lemma {:induction false} TailAppend(s: string, t: string)
    requires OneLine(t) && Tail(s) == ""
    ensures Tail(s + t) == t && Lines(s + t) == Lines(s)
  {
    if t == "" {
      assert s + t == s;
    } else {
      var n := |t| - 1;
      TailAppend(s, t[..n]);
      assert (s + t)[..|s + t| - 1] == s + t[..n];
      assert t[n] in t;
      assert t == t[..n] + [t[n]];
    }
  }

  /** Finished text grows by whole lines. */
  lemma LineAppended(s: string, line: string)
    requires Tail(s) == "" && OneLine(line)
    ensures Tail(s + line + "\n") == "" && Lines(s + line + "\n") == Lines(s) + [line]
  {
    TailAppend(s, line);
    var t := s + line + "\n";
    assert t[..|t| - 1] == s + line && t[|t| - 1] == '\n';
  }

  lemma ReadAppended(r: Reader, lines: seq<string>, line: string)
    ensures ReadLines(r, lines + [line]) == ReadLine(ReadLines(r, lines), line)
  {
    assert (lines + [line])[..|lines|] == lines;
  }

  /** The reader after a finished text. */
  function After(s: string): Reader {
    ReadLines(Reader(map[], ""), Lines(s))
  }

  lemma AfterLine(s: string, line: string)
    requires Tail(s) == "" && OneLine(line)
    ensures Tail(s + line + "\n") == "" && After(s + line + "\n") == ReadLine(After(s), line)
  {
    LineAppended(s, line);
    ReadAppended(Reader(map[], ""), Lines(s), line);
  }

  /** The kinds of line in the text. */
  function NodeLine(node: string): string { NODE_START + node + "\"" }

  function DevicesLine(): string { "      devices:" }

  function DiskLine(disk: string): string { DISK_START + disk }

  function HeaderLine(i: nat): string {
    if i == 0 then "ceph:" else if i == 1 then "  storage:" else "    nodes:"
  }

  lemma ReadNodeLine(r: Reader, node: string)
    ensures ReadLine(r, NodeLine(node)) == Reader(r.disks[node := []], node)
    ensures OneLine(node) ==> OneLine(NodeLine(node))
  {
    var line := NodeLine(node);
    assert NODE_START <= line;
    assert line[|NODE_START|..|line| - 1] == node;
  }

  lemma ReadDevicesLine(r: Reader)
    ensures ReadLine(r, DevicesLine()) == r && OneLine(DevicesLine())
  {
    assert NODE_START[4] == '-' && DevicesLine()[4] == ' ';
    assert DISK_START[6] == '-' && DevicesLine()[6] == 'd';
  }

  lemma ReadDiskLine(r: Reader, disk: string)
    requires r.node in r.disks
    ensures ReadLine(r, DiskLine(disk)) == r.(disks := r.disks[r.node := r.disks[r.node] + [disk]])
    ensures OneLine(disk) ==> OneLine(DiskLine(disk))
  {
    var line := DiskLine(disk);
    assert line[|DISK_START|..] == disk;
    assert NODE_START[4] == '-' && line[4] == ' ';
  }

  lemma ReadHeaderLine(r: Reader, i: nat)
    ensures ReadLine(r, HeaderLine(i)) == r && OneLine(HeaderLine(i))
  {
    var line := HeaderLine(i);
    assert NODE_START[0] == ' ' == DISK_START[0] && NODE_START[2] == ' ' == DISK_START[2];
    assert NODE_START[4] == '-' && DISK_START[4] == ' ';
    assert line[0] == 'c' || line[2] == 's' || line[4] == 'n';
  }

  lemma NodeTextLines(node: string)
    ensures NodeText(node) == NodeLine(node) + "\n" + DevicesLine() + "\n"
  {
    assert "\"\n      devices:\n" == "\"" + "\n" + DevicesLine() + "\n";
  }

  lemma DiskTextLines(disk: string)
    ensures DiskText(disk) == DiskLine(disk) + "\n"
  {
  }

  lemma HeaderLines()
    ensures HEADER == HeaderLine(0) + "\n" + HeaderLine(1) + "\n" + HeaderLine(2) + "\n"
  {
  }

  lemma NodeRead(s: string, node: string)
    requires Tail(s) == "" && OneLine(node)
    ensures Tail(s + NodeText(node)) == ""
    ensures After(s + NodeText(node)) == Reader(After(s).disks[node := []], node)
  {
    hide NodeText, NodeLine, DevicesLine, ReadLine, Lines, Tail, OneLine, ReadLines, After;
    var s1 := s + NodeLine(node) + "\n";
    ReadNodeLine(After(s), node);
    AfterLine(s, NodeLine(node));
    ReadDevicesLine(After(s1));
    AfterLine(s1, DevicesLine());
    NodeTextLines(node);
    assert s + NodeText(node) == s1 + DevicesLine() + "\n";
  }

  lemma {:induction false} DisksRead(s: string, disks: seq<string>)
    requires Tail(s) == "" && (forall d :: d in disks ==> OneLine(d)) && After(s).node in After(s).disks
    ensures Tail(s + DisksText(disks)) == ""
    ensures var r := After(s);
            After(s + DisksText(disks)) == r.(disks := r.disks[r.node := r.disks[r.node] + disks])
  {
    hide DiskText, DiskLine, ReadLine, Lines, Tail, OneLine, ReadLines, After;
    var r := After(s);
    if disks == [] {
      assert s + DisksText(disks) == s && r.disks[r.node] + [] == r.disks[r.node];
      assert r.disks[r.node := r.disks[r.node]] == r.disks;
    } else {
      var n := |disks| - 1;
      var s1 := s + DisksText(disks[..n]);
      DisksRead(s, disks[..n]);
      assert disks[n] in disks;
      ReadDiskLine(After(s1), disks[n]);
      AfterLine(s1, DiskLine(disks[n]));
      DiskTextLines(disks[n]);
      assert s + DisksText(disks) == s1 + DiskLine(disks[n]) + "\n";
      assert r.disks[r.node] + disks[..n] + [disks[n]] == r.disks[r.node] + disks;
    }
  }

  /** The part of the map that stands under the given nodes. */
  function Restrict(osd: map<string, seq<string>>, nodes: seq<string>): map<string, seq<string>> {
    map n | n in nodes :: DisksAt(osd, n)
  }

  /** No name holds a newline: device names and decimal IDs do not. */
  ghost predicate Printable(osd: map<string, seq<string>>) {
    forall n :: n in osd ==> OneLine(n) && forall d :: d in osd[n] ==> OneLine(d)
  }

  lemma {:induction false} NodesRead(head: string, osd: map<string, seq<string>>, nodes: seq<string>)
    requires Printable(osd) && NoDup(nodes) && forall n :: n in nodes ==> n in osd
    requires Tail(head) == "" && After(head).disks == map[]
    ensures Tail(head + NodesText(osd, nodes)) == ""
    ensures After(head + NodesText(osd, nodes)).disks == Restrict(osd, nodes)
  {
    hide NodeText, DisksText, Lines, Tail, OneLine, ReadLines, After;
    if nodes == [] {
      assert head + NodesText(osd, nodes) == head;
    } else {
      var n := |nodes| - 1;
      var before, node := nodes[..n], nodes[n];
      NodesRead(head, osd, before);
      assert node in nodes;
      OneNodeRead(head + NodesText(osd, before), osd, node);
      assert head + NodesText(osd, nodes) == head + NodesText(osd, before) + NodeText(node) + DisksText(DisksAt(osd, node));
      RestrictStep(osd, before, node);
      assert nodes == before + [node];
    }
  }

  /** One node with its disks, appended to a finished text. */
  lemma OneNodeRead(s: string, osd: map<string, seq<string>>, node: string)
    requires Tail(s) == "" && Printable(osd) && node in osd
    ensures var t := s + NodeText(node) + DisksText(DisksAt(osd, node));
            Tail(t) == "" && After(t).disks == After(s).disks[node := DisksAt(osd, node)]
  {
    hide NodeText, DisksText, Lines, Tail, ReadLines, After;
    NodeRead(s, node);
    DisksRead(s + NodeText(node), DisksAt(osd, node));
    assert [] + DisksAt(osd, node) == DisksAt(osd, node);
  }

  lemma RestrictStep(osd: map<string, seq<string>>, nodes: seq<string>, node: string)
    ensures Restrict(osd, nodes + [node]) == Restrict(osd, nodes)[node := DisksAt(osd, node)]
  {
  }

  lemma HeaderRead()
    ensures Tail(HEADER) == "" && After(HEADER).disks == map[]
  {
    hide HeaderLine, ReadLine, OneLine;
    HeaderLines();
    var s1 := "" + HeaderLine(0) + "\n";
    var s2 := s1 + HeaderLine(1) + "\n";
    ReadHeaderLine(After(""), 0);
    AfterLine("", HeaderLine(0));
    ReadHeaderLine(After(s1), 1);
    AfterLine(s1, HeaderLine(1));
    ReadHeaderLine(After(s2), 2);
    AfterLine(s2, HeaderLine(2));
    assert HEADER == s2 + HeaderLine(2) + "\n";
  }

  /** The text stands for the map, for every order in which the map may be visited. */
  lemma RookRoundTrip(osd: map<string, seq<string>>, nodes: seq<string>)
    requires Printable(osd) && NoDup(nodes) && SetOf(nodes) == osd.Keys
    ensures Decode(RookValues.Text(osd, nodes)) == osd
  {
    hide NodesText;
    forall n ensures n in nodes <==> n in osd {
      assert n in SetOf(nodes) <==> n in osd.Keys;
    }
    HeaderRead();
    NodesRead(HEADER, osd, nodes);
    assert Restrict(osd, nodes) == osd;
  }
}
