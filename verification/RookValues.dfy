/** The Helm values text that tells rook-ceph which disks of which node it may use. */
module RookValues {

  const HEADER := "ceph:\n  storage:\n    nodes:\n"

  function NodeText(node: string): string {
    "    - name: \"worker-" + node + "\"\n      devices:\n"
  }

  function DiskText(disk: string): string {
    "      - name: " + disk + "\n"
  }

  function DisksText(disks: seq<string>): string {
    if disks == [] then ""
    else
      var n := |disks| - 1;
      DisksText(disks[..n]) + DiskText(disks[n])
  }

  function DisksAt(osd: map<string, seq<string>>, node: string): seq<string> {
    if node in osd then osd[node] else []
  }

  function NodesText(osd: map<string, seq<string>>, nodes: seq<string>): string {
    if nodes == [] then ""
    else
      var n := |nodes| - 1;
      NodesText(osd, nodes[..n]) + NodeText(nodes[n]) + DisksText(DisksAt(osd, nodes[n]))
  }

  /** The text for a map visited in the order `nodes`. */
  function Text(osd: map<string, seq<string>>, nodes: seq<string>): string {
    HEADER + NodesText(osd, nodes)
  }
}
