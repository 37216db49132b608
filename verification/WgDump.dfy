/** The reader of the tab-separated `wg show <interface> dump` text (lib/wg_engine.py). */
module WgDump {
  import opened Basics
  import opened Text

  datatype Iface = Iface(privateKey: string, publicKey: string, port: string, fwmark: string)

  datatype Peer = Peer(
    publicKey: string,
    preshared: Option<string>,
    endpoint: Option<string>,
    allowedIps: Option<string>,
    latestHandshake: Option<string>,
    transferRx: Option<string>,
    transferTx: Option<string>,
    keepalive: Option<string>)

  type Peers = map<string, Peer>

  datatype Dump = Dump(iface: Option<Iface>, peers: Peers)

  datatype DumpError = BadOutput

  const NONE := "(none)"

  // ---- reading ---------------------------------------------------------------------------

  function ReplaceNone(txt: string): Option<string>
  {
    if txt == NONE then None else Some(txt)
  }

  function IfaceOf(line: string): Option<Iface>
  {
    var f := Split(line, '\t');
    if |f| == 4 then Some(Iface(f[0], f[1], f[2], f[3])) else None
  }

  predicate IsPeerLine(line: string)
  {
    |Split(line, '\t')| == 8
  }

  predicate IsBadLine(line: string)
  {
    |Split(line, '\t')| != 8 && |Split(line, '\t')| != 1
  }

  function PeerOf(line: string): Peer
    requires IsPeerLine(line)
  {
    var f := Split(line, '\t');
    Peer(f[0], ReplaceNone(f[1]), ReplaceNone(f[2]), ReplaceNone(f[3]), ReplaceNone(f[4]),
         ReplaceNone(f[5]), ReplaceNone(f[6]), ReplaceNone(f[7]))
  }

  // What a line means, on its fields: eight make a peer, whose fields but the key are absent
  // where the text is "(none)", an empty line is passed over, and four make the interface.
  lemma {:induction false} LineMeans(line: string)
    ensures
      var f := Split(line, '\t');
      && (IsBadLine(line) <==> |f| != 8 && |f| != 1)
      && (IsPeerLine(line) <==> |f| == 8)
      && (|f| == 8 ==>
            var p := PeerOf(line);
            && p.publicKey == f[0] && Means(f[1], p.preshared) && Means(f[2], p.endpoint)
            && Means(f[3], p.allowedIps) && Means(f[4], p.latestHandshake)
            && Means(f[5], p.transferRx) && Means(f[6], p.transferTx) && Means(f[7], p.keepalive))
      && (IfaceOf(line).Some? <==> |f| == 4)
      && (|f| == 4 ==>
            var i := IfaceOf(line).value;
            i.privateKey == f[0] && i.publicKey == f[1] && i.port == f[2] && i.fwmark == f[3])
  {
  }

  predicate Means(text: string, value: Option<string>)
  {
    if text == "(none)" then value.None? else value == Some(text)
  }

  // The last line with the key, if any line has it.
  function LastFor(lines: seq<string>, key: string): Option<Peer>
  {
    if |lines| == 0 then None
    else
      var last := lines[|lines| - 1];
      if IsPeerLine(last) && PeerOf(last).publicKey == key then Some(PeerOf(last))
      else LastFor(lines[..|lines| - 1], key)
  }

  // The answer for a dump: an error exactly when a line after the first is bad, and
  // otherwise the last line of each key.
  ghost predicate Reads(dump: string, r: Result<Dump, DumpError>)
  {
    var lines := Split(dump, '\n');
    match r
    case Err(_) => exists i :: 1 <= i < |lines| && IsBadLine(lines[i])
    case Ok(d) =>
      && (forall i :: 1 <= i < |lines| ==> !IsBadLine(lines[i]))
      && d.iface == IfaceOf(lines[0])
      && (forall key :: key in d.peers <==> LastFor(lines[1..], key).Some?)
      && (forall key :: key in d.peers ==> LastFor(lines[1..], key) == Some(d.peers[key]))
  }

  method ParseShowDump(dump: string) returns (r: Result<Dump, DumpError>)
    ensures Reads(dump, r)
  {
    var lines := Split(dump, '\n');
    var rest := lines[1..];
    var peers: Peers := map[];
    for i := 0 to |rest|
      invariant forall k :: 0 <= k < i ==> !IsBadLine(rest[k])
      invariant forall key :: key in peers <==> LastFor(rest[..i], key).Some?
      invariant forall key :: key in peers ==> LastFor(rest[..i], key) == Some(peers[key])
    {
      assert rest[i] == lines[i + 1];
      var fields := Split(rest[i], '\t');
      assert rest[..i + 1][..i] == rest[..i];
      if |fields| == 8 {
        peers := peers[fields[0] := PeerOf(rest[i])];
      } else if |fields| != 1 {
        return Err(BadOutput);
      }
    }
    assert rest[..|rest|] == rest;
    assert forall i :: 1 <= i < |lines| ==> lines[i] == rest[i - 1];
    return Ok(Dump(IfaceOf(lines[0]), peers));
  }

  // The answer is the only one.
  lemma {:induction false} ReadsIsFunctional(dump: string, a: Result<Dump, DumpError>, b: Result<Dump, DumpError>)
    requires Reads(dump, a) && Reads(dump, b)
    ensures a == b
  {
    if a.Ok? && b.Ok? {
      assert forall key :: key in a.value.peers <==> key in b.value.peers;
      assert forall key :: key in a.value.peers ==> a.value.peers[key] == b.value.peers[key];
      assert a.value.peers == b.value.peers;
    } else if a.Err? && b.Err? {
      match (a.error, b.error) {
        case (BadOutput, BadOutput) =>
      }
    }
  }

  // ---- printing ---------------------------------------------------------------------------

  function Shown(o: Option<string>): string
  {
    if o.None? then NONE else o.value
  }

  function IfaceFields(i: Iface): seq<string>
  {
    [i.privateKey, i.publicKey, i.port, i.fwmark]
  }

  function PeerFields(p: Peer): seq<string>
  {
    [p.publicKey, Shown(p.preshared), Shown(p.endpoint), Shown(p.allowedIps), Shown(p.latestHandshake),
     Shown(p.transferRx), Shown(p.transferTx), Shown(p.keepalive)]
  }

  function PeerLines(peers: seq<Peer>): (lines: seq<string>)
    ensures |lines| == |peers|
    ensures forall i :: 0 <= i < |peers| ==> lines[i] == Join(PeerFields(peers[i]), '\t')
  {
    seq(|peers|, i requires 0 <= i < |peers| => Join(PeerFields(peers[i]), '\t'))
  }

  // What the tool prints for an interface and its peers; a final line break or none.
  function Render(iface: Iface, peers: seq<Peer>, newline: bool): string
  {
    Join([Join(IfaceFields(iface), '\t')] + PeerLines(peers) + (if newline then [""] else []), '\n')
  }

  predicate PlainText(s: string)
  {
    '\t' !in s && '\n' !in s
  }

  predicate Plain(fields: seq<string>)
  {
    forall i :: 0 <= i < |fields| ==> PlainText(fields[i])
  }

  // Present optional fields are not the text that stands for an absent one.
  predicate Proper(p: Peer)
  {
    && Some(NONE) != p.preshared && Some(NONE) != p.endpoint && Some(NONE) != p.allowedIps
    && Some(NONE) != p.latestHandshake && Some(NONE) != p.transferRx && Some(NONE) != p.transferTx
    && Some(NONE) != p.keepalive
  }

  lemma {:induction false} JoinPlain(fields: seq<string>)
    requires Plain(fields)
    ensures '\n' !in Join(fields, '\t')
  {
    if |fields| > 1 {
      assert forall i :: 0 <= i < |fields[1..]| ==> fields[1..][i] == fields[i + 1];
      JoinPlain(fields[1..]);
    }
  }

  // A printed peer line reads back as the peer.
  lemma {:induction false} PeerLine(p: Peer)
    requires Plain(PeerFields(p)) && Proper(p)
    ensures IsPeerLine(Join(PeerFields(p), '\t')) && PeerOf(Join(PeerFields(p), '\t')) == p
  {
    assert forall i :: 0 <= i < 8 ==> PlainText(PeerFields(p)[i]);
    SplitJoin(PeerFields(p), '\t');
  }

  predicate DistinctKeys(peers: seq<Peer>)
  {
    forall i, j :: 0 <= i < j < |peers| ==> peers[i].publicKey != peers[j].publicKey
  }

  lemma {:induction false} LastForRendered(peers: seq<Peer>, key: string)
    requires forall i :: 0 <= i < |peers| ==> Plain(PeerFields(peers[i])) && Proper(peers[i])
    requires DistinctKeys(peers)
    ensures LastFor(PeerLines(peers), key).Some? ==> LastFor(PeerLines(peers), key).value in peers
    ensures forall i :: 0 <= i < |peers| && peers[i].publicKey == key ==>
              LastFor(PeerLines(peers), key) == Some(peers[i])
    ensures LastFor(PeerLines(peers), key).Some? ==> LastFor(PeerLines(peers), key).value.publicKey == key
  {
    if |peers| > 0 {
      var n := |peers| - 1;
      PeerLine(peers[n]);
      assert PeerLines(peers)[..n] == PeerLines(peers[..n]);
      LastForRendered(peers[..n], key);
    }
  }

  lemma {:induction false} LinesOfRender(iface: Iface, peers: seq<Peer>, newline: bool)
    requires Plain(IfaceFields(iface))
    requires forall i :: 0 <= i < |peers| ==> Plain(PeerFields(peers[i]))
    ensures Split(Render(iface, peers, newline), '\n') ==
            [Join(IfaceFields(iface), '\t')] + PeerLines(peers) + (if newline then [""] else [])
  {
    var lines := [Join(IfaceFields(iface), '\t')] + PeerLines(peers) + (if newline then [""] else []);
    JoinPlain(IfaceFields(iface));
    forall i | 0 <= i < |peers| ensures '\n' !in PeerLines(peers)[i] {
      JoinPlain(PeerFields(peers[i]));
    }
    forall i | 0 <= i < |lines| ensures '\n' !in lines[i] {
    }
    SplitJoin(lines, '\n');
  }

  // The final line break adds a line that is neither bad nor a peer.
  lemma {:induction false} BlankLine(lines: seq<string>, key: string)
    ensures !IsBadLine("") && LastFor(lines + [""], key) == LastFor(lines, key)
  {
    assert (lines + [""])[..|lines|] == lines;
    SplitOne("", '\t');
  }

  lemma {:induction false} RenderedLines(iface: Iface, peers: seq<Peer>, newline: bool)
    requires Plain(IfaceFields(iface))
    requires forall i :: 0 <= i < |peers| ==> Plain(PeerFields(peers[i])) && Proper(peers[i])
    ensures
      var lines := Split(Render(iface, peers, newline), '\n');
      && IfaceOf(lines[0]) == Some(iface)
      && (forall i :: 1 <= i < |lines| ==> !IsBadLine(lines[i]))
      && (forall key :: LastFor(lines[1..], key) == LastFor(PeerLines(peers), key))
  {
    hide IsBadLine, LastFor, IfaceOf, Split, Join, Render, Plain, Proper, IfaceFields, PeerFields;
    var lines := Split(Render(iface, peers, newline), '\n');
    LinesOfRender(iface, peers, newline);
    IfaceLine(iface);
    assert lines[1..] == PeerLines(peers) + (if newline then [""] else []);
    forall i | 1 <= i < |lines| ensures !IsBadLine(lines[i]) {
      if i <= |peers| {
        PeerLineIsGood(peers[i - 1]);
      } else {
        BlankLine([], "");
      }
    }
    forall key ensures LastFor(lines[1..], key) == LastFor(PeerLines(peers), key) {
      BlankLine(PeerLines(peers), key);
      assert PeerLines(peers) + [] == PeerLines(peers);
    }
  }

  lemma {:induction false} IfaceLine(iface: Iface)
    requires Plain(IfaceFields(iface))
    ensures IfaceOf(Join(IfaceFields(iface), '\t')) == Some(iface)
  {
    assert forall i :: 0 <= i < 4 ==> PlainText(IfaceFields(iface)[i]);
    SplitJoin(IfaceFields(iface), '\t');
  }

  lemma {:induction false} PeerLineIsGood(p: Peer)
    requires Plain(PeerFields(p)) && Proper(p)
    ensures !IsBadLine(Join(PeerFields(p), '\t'))
  {
    PeerLine(p);
  }

  // Reading back what was printed gives the interface and every peer, and nothing else.
  lemma {:induction false} RenderedReadsBack(iface: Iface, peers: seq<Peer>, newline: bool, r: Result<Dump, DumpError>)
    requires Plain(IfaceFields(iface)) && DistinctKeys(peers)
    requires forall i :: 0 <= i < |peers| ==> Plain(PeerFields(peers[i])) && Proper(peers[i])
    requires Reads(Render(iface, peers, newline), r)
    ensures r.Ok? && r.value.iface == Some(iface)
    ensures forall i :: 0 <= i < |peers| ==>
              peers[i].publicKey in r.value.peers && r.value.peers[peers[i].publicKey] == peers[i]
    ensures forall key :: key in r.value.peers ==> r.value.peers[key] in peers
  {
    RenderedLines(iface, peers, newline);
    hide LastFor, IsBadLine, Plain, Proper, Render, Split, IfaceOf, PeerLines;
    forall key
      ensures LastFor(PeerLines(peers), key).Some? ==> LastFor(PeerLines(peers), key).value in peers
      ensures forall i :: 0 <= i < |peers| && peers[i].publicKey == key ==>
              LastFor(PeerLines(peers), key) == Some(peers[i])
    {
      LastForRendered(peers, key);
    }
  }
}
