/**
  From the text of `wg show ... dump` to the peer table that the allocator and the
  reconcile loop work on.
 */
module WgTable {
  import opened Basics
  import opened SessionTable
  import Text
  import opened WgPool
  import opened WgServer
  import WgDump

  // How addresses and numbers are written and read; the library that does it is not part
  // of this model.
  datatype Notation = Notation(
    showNet: Cidr -> string, readNet: string -> Cidr,
    showTime: int -> string, readTime: string -> int)

  predicate OneField(s: string)
  {
    WgDump.PlainText(s) && s != WgDump.NONE && s != ""
  }

  // What is written reads back, and fits a field and a comma separated list.
  ghost predicate Faithful(n: Notation)
  {
    && (forall c :: n.readNet(n.showNet(c)) == c && OneField(n.showNet(c)) && ',' !in n.showNet(c))
    && (forall t :: n.readTime(n.showTime(t)) == t && OneField(n.showTime(t)))
  }

  // ---- reading ------------------------------------------------------------------------

  function NetsRead(n: Notation, text: string): seq<Cidr>
  {
    var parts := Text.Split(text, ',');
    seq(|parts|, i requires 0 <= i < |parts| => n.readNet(parts[i]))
  }

  function PeerRead(n: Notation, p: WgDump.Peer): Peer
  {
    Peer(if p.allowedIps.Some? then Some(NetsRead(n, p.allowedIps.value)) else None,
         if p.latestHandshake.Some? then n.readTime(p.latestHandshake.value) else 0)
  }

  function TableRead(n: Notation, peers: WgDump.Peers): Table
  {
    map k | k in peers :: PeerRead(n, peers[k])
  }

  // ---- writing --------------------------------------------------------------------------

  function Shown(n: Notation, nets: seq<Cidr>): (parts: seq<string>)
    ensures |parts| == |nets|
    ensures forall i :: 0 <= i < |nets| ==> parts[i] == n.showNet(nets[i])
  {
    seq(|nets|, i requires 0 <= i < |nets| => n.showNet(nets[i]))
  }

  // `text` is a printed peer that stands for the table's entry under its key.
  ghost predicate Prints(n: Notation, peers: Table, text: WgDump.Peer)
  {
    && text.publicKey in peers
    && text.latestHandshake == Some(n.showTime(peers[text.publicKey].handshake))
    && text.allowedIps == match peers[text.publicKey].nets
                          case None => None
                          case Some(nets) => Some(Text.Join(Shown(n, nets), ','))
  }

  // The printed peers are those of the table, each once, with lists that are not empty.
  ghost predicate PrintsAll(n: Notation, peers: Table, texts: seq<WgDump.Peer>)
  {
    && (forall i :: 0 <= i < |texts| ==> Prints(n, peers, texts[i]))
    && (forall k :: k in peers ==> exists i :: 0 <= i < |texts| && texts[i].publicKey == k)
    && WgDump.DistinctKeys(texts)
    && (forall k :: k in peers && peers[k].nets.Some? ==> |peers[k].nets.value| > 0)
  }

  lemma {:induction false} NetsReadBack(n: Notation, nets: seq<Cidr>)
    requires Faithful(n) && |nets| > 0
    ensures NetsRead(n, Text.Join(Shown(n, nets), ',')) == nets
  {
    Text.SplitJoin(Shown(n, nets), ',');
  }

  lemma {:induction false} PeerReadsBack(n: Notation, peers: Table, text: WgDump.Peer)
    requires Faithful(n) && Prints(n, peers, text)
    requires peers[text.publicKey].nets.Some? ==> |peers[text.publicKey].nets.value| > 0
    ensures PeerRead(n, text) == peers[text.publicKey]
  {
    var p := peers[text.publicKey];
    if p.nets.Some? {
      NetsReadBack(n, p.nets.value);
    }
  }

  // Reading the printed dump of an interface gives back its peer table, so that the
  // allocator, fed with the dump, answers for the interface.
  lemma {:induction false} DumpGivesTable(
    n: Notation, peers: Table, iface: WgDump.Iface, texts: seq<WgDump.Peer>, newline: bool,
    r: Result<WgDump.Dump, WgDump.DumpError>)
    requires Faithful(n) && PrintsAll(n, peers, texts)
    requires WgDump.Plain(WgDump.IfaceFields(iface))
    requires forall i :: 0 <= i < |texts| ==> WgDump.Plain(WgDump.PeerFields(texts[i])) && WgDump.Proper(texts[i])
    requires WgDump.Reads(WgDump.Render(iface, texts, newline), r)
    ensures r.Ok? && TableRead(n, r.value.peers) == peers
    ensures
      var t := TableRead(n, r.value.peers);
      forall keys, nets :: Listed(t, keys, nets) ==> Installed(nets) == Occupied(peers)
  {
    WgDump.RenderedReadsBack(iface, texts, newline, r);
    var dump := WgDump.Render(iface, texts, newline);
    forall k | k in r.value.peers ensures r.value.peers[k].publicKey == k {
      ReadUnderOwnKey(dump, r, k);
    }
    hide WgDump.Reads, WgDump.Render, WgDump.Plain, WgDump.Proper, Faithful, Listed, Installed, Occupied;
    SameTable(n, peers, texts, r.value.peers);
    forall keys, nets | Listed(peers, keys, nets) ensures Installed(nets) == Occupied(peers) {
      ListedSame(peers, keys, nets);
    }
  }

  // Peers read from the printed ones, each under its own key, make up the table.
  lemma {:induction false} SameTable(n: Notation, peers: Table, texts: seq<WgDump.Peer>, read: WgDump.Peers)
    requires Faithful(n) && PrintsAll(n, peers, texts)
    requires forall i :: 0 <= i < |texts| ==> texts[i].publicKey in read && read[texts[i].publicKey] == texts[i]
    requires forall k :: k in read ==> read[k] in texts && read[k].publicKey == k
    ensures TableRead(n, read) == peers
  {
    hide Faithful, PeerRead, Prints;
    forall k | k in peers ensures k in read && PeerRead(n, read[k]) == peers[k] {
      var i :| 0 <= i < |texts| && texts[i].publicKey == k;
      assert Prints(n, peers, texts[i]);
      PeerReadsBack(n, peers, texts[i]);
    }
    forall k | k in read ensures k in peers {
      var i :| 0 <= i < |texts| && texts[i] == read[k];
      assert Prints(n, peers, texts[i]);
      PrintedKey(n, peers, texts[i]);
    }
  }

  lemma {:induction false} PrintedKey(n: Notation, peers: Table, text: WgDump.Peer)
    requires Prints(n, peers, text)
    ensures text.publicKey in peers
  {
  }

  lemma {:induction false} ReadUnderOwnKey(dump: string, r: Result<WgDump.Dump, WgDump.DumpError>, k: string)
    requires WgDump.Reads(dump, r) && r.Ok? && k in r.value.peers
    ensures r.value.peers[k].publicKey == k
  {
    LastForKey(Text.Split(dump, '\n')[1..], k);
  }

  lemma {:induction false} LastForKey(lines: seq<string>, k: string)
    ensures WgDump.LastFor(lines, k).Some? ==> WgDump.LastFor(lines, k).value.publicKey == k
  {
    if |lines| > 0 {
      LastForKey(lines[..|lines| - 1], k);
    }
  }
}
