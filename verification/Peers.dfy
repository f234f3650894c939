/**
 The peer list: load_option joins the command line arguments that contain ':' into one string, and
 init_sync_server_list takes the string apart again.
 */
module Peers {
  import opened Text

  /** A server record; the port is still text. */
  datatype Server = Server(host: string, port: string)

  predicate IsPeer(arg: string) {
    ':' in arg
  }

  /** host:port, split at the first ':' */
  function SplitPeer(arg: string): Server
    requires IsPeer(arg)
  {
    FindHit(arg, ':', 0);
    var k := Find(arg, ':', 0);
    Server(arg[..k], arg[k + 1..])
  }

  lemma FindHit(s: string, c: char, from: nat)
    requires from <= |s|
    ensures Find(s, c, from) < |s| <==> c in s[from..]
  {
    FindFirst(s, c, from);
    var r := Find(s, c, from);
    assert r < |s| ==> s[from..][r - from] == s[r];
    if c in s[from..] {
      var k :| 0 <= k < |s| - from && s[from..][k] == c;
      assert s[from + k] == c;
    }
  }

  // ---------- joining ----------

  /** What argument i of n adds: itself when it contains ':', and a space unless it is the last. */
  function Piece(args: seq<string>, i: nat): string
    requires i < |args|
  {
    if !IsPeer(args[i]) then "" else args[i] + if i != |args| - 1 then " " else ""
  }

  function JoinedFrom(args: seq<string>, i: nat): string
    requires i <= |args|
    decreases |args| - i
  {
    if i == |args| then "" else Piece(args, i) + JoinedFrom(args, i + 1)
  }

  /** The loop of load_option. strstr(argv[i], ":") looks for the character. */
  method JoinPeers(args: seq<string>) returns (peers: string)
    ensures peers == JoinedFrom(args, 0)
  {
    peers := "";
    for i := 0 to |args|
      invariant peers + JoinedFrom(args, i) == JoinedFrom(args, 0)
    {
      JoinStep(peers, args, i);
      if IsPeer(args[i]) {
        peers := peers + args[i];
        if i != |args| - 1 {
          peers := peers + " ";
        }
      }
    }
  }

  lemma Regroup<T>(a: seq<T>, b: seq<T>, c: seq<T>)
    ensures a + (b + c) == a + b + c
  {
  }

  lemma JoinStep(front: string, args: seq<string>, i: nat)
    requires i < |args|
    ensures front + JoinedFrom(args, i) == front + Piece(args, i) + JoinedFrom(args, i + 1)
    ensures !IsPeer(args[i]) ==> front + Piece(args, i) == front
    ensures IsPeer(args[i]) ==> front + Piece(args, i) == front + args[i] + if i != |args| - 1 then " " else ""
  {
  }

  // ---------- taking apart ----------

  /** What one turn of the search finds: no further ':', the last peer, or a peer with a space behind it. */
  datatype Found = NoPeer | LastPeer(server: Server) | OnePeer(server: Server, next: nat)

  /** pos1 is peers.find(":", pos) and pos2 is peers.find(" ", pos1). */
  function Search(peers: string, pos: nat): (f: Found)
    requires pos <= |peers|
    ensures f.OnePeer? ==> pos < f.next <= |peers|
  {
    var pos1 := Find(peers, ':', pos);
    if pos1 == |peers| then NoPeer
    else
      SpaceIsBehind(peers, pos);
      var pos2 := Find(peers, ' ', pos1);
      var server := Server(peers[pos..pos1], peers[pos1 + 1..pos2]);
      if pos2 == |peers| then LastPeer(server) else OnePeer(server, pos2 + 1)
  }

  lemma SpaceIsBehind(peers: string, pos: nat)
    requires pos <= |peers| && Find(peers, ':', pos) < |peers|
    ensures Find(peers, ' ', Find(peers, ':', pos)) > Find(peers, ':', pos)
  {
    FindFirst(peers, ':', pos);
    FindFirst(peers, ' ', Find(peers, ':', pos));
  }

  /** What the search from pos on adds to the server list. */
  function ParsedFrom(peers: string, pos: nat): seq<Server>
    requires pos <= |peers|
    decreases |peers| - pos
  {
    match Search(peers, pos)
    case NoPeer => []
    case LastPeer(server) => [server]
    case OnePeer(server, next) => [server] + ParsedFrom(peers, next)
  }

  /** The server list; sync_server_list_add inserts at the end. */
  class ServerList {
    var servers: seq<Server>

    constructor ()
      ensures servers == []
    {
      servers := [];
    }

    method Add(server: Server)
      modifies this
      ensures servers == old(servers) + [server]
    {
      servers := servers + [server];
    }

    /** One turn of the loop of init_sync_server_list. */
    method SearchOne(peers: string, pos: nat) returns (keepsearching: bool, next: nat)
      requires pos <= |peers|
      modifies this
      ensures match Search(peers, pos)
              case NoPeer => servers == old(servers) && !keepsearching
              case LastPeer(server) => servers == old(servers) + [server] && !keepsearching
              case OnePeer(server, p) => servers == old(servers) + [server] && keepsearching && next == p
      ensures next <= |peers|
    {
      keepsearching, next := true, pos;
      var pos1 := Find(peers, ':', pos);
      if pos1 != |peers| {
        SpaceIsBehind(peers, pos);
        var pos2 := Find(peers, ' ', pos1);
        var host := peers[pos..pos1];
        var port;
        if pos2 != |peers| {
          port := peers[pos1 + 1..pos2];
          next := pos2 + 1;
        } else {
          port := peers[pos1 + 1..];
          assert port == peers[pos1 + 1..pos2];
          keepsearching := false;
        }
        Add(Server(host, port));
      } else {
        keepsearching := false;
      }
    }

    /** init_sync_server_list */
    method Init(peers: string) returns (ret: int)
      modifies this
      ensures ret == if peers == "" then -1 else 0
      ensures servers == if peers == "" then old(servers) else ParsedFrom(peers, 0)
    {
      if peers == "" {
        return -1;
      }
      servers := [];
      var pos := 0;
      var keepsearching := true;
      while keepsearching
        invariant pos <= |peers|
        invariant keepsearching ==> servers + ParsedFrom(peers, pos) == ParsedFrom(peers, 0)
        invariant !keepsearching ==> servers == ParsedFrom(peers, 0)
        decreases if keepsearching then |peers| - pos + 1 else 0
      {
        ghost var found := Search(peers, pos);
        if found.OnePeer? {
          Regroup(servers, [found.server], ParsedFrom(peers, found.next));
        }
        keepsearching, pos := SearchOne(peers, pos);
      }
      ret := 0;
    }
  }

  // ---------- round trip ----------

  predicate NoSpaces(args: seq<string>) {
    forall k :: 0 <= k < |args| ==> ' ' !in args[k]
  }

  function PeersOf(args: seq<string>): seq<Server> {
    if args == [] then []
    else if IsPeer(args[0]) then [SplitPeer(args[0])] + PeersOf(args[1..])
    else PeersOf(args[1..])
  }

  lemma FindSuffix(s: string, c: char, pos: nat, from: nat)
    requires pos <= from <= |s|
    ensures Find(s, c, from) == pos + Find(s[pos..], c, from - pos)
  {
    FindFirst(s, c, from);
    FindIs(s[pos..], c, from - pos, Find(s, c, from) - pos);
  }

  lemma SliceOfSuffix(s: string, pos: nat, i: nat, j: nat)
    requires pos <= i <= j <= |s|
    ensures s[pos..][i - pos..j - pos] == s[i..j]
  {
  }

  function Shifted(f: Found, pos: nat): Found {
    if f.OnePeer? then OnePeer(f.server, f.next + pos) else f
  }

  lemma SearchSuffix(peers: string, pos: nat, from: nat)
    requires pos <= from <= |peers|
    ensures Search(peers, from) == Shifted(Search(peers[pos..], from - pos), pos)
  {
    var k := Find(peers, ':', from);
    FindSuffix(peers, ':', pos, from);
    if k < |peers| {
      SpaceIsBehind(peers, from);
      FindSuffix(peers, ' ', pos, k);
      SliceOfSuffix(peers, pos, from, k);
      SliceOfSuffix(peers, pos, k + 1, Find(peers, ' ', k));
    }
  }

  /** Parsing looks at nothing in front of its position. */
  lemma {:induction false} ParsedSuffix(peers: string, pos: nat, from: nat)
    requires pos <= from <= |peers|
    ensures ParsedFrom(peers, from) == ParsedFrom(peers[pos..], from - pos)
    decreases |peers| - from
  {
    SearchSuffix(peers, pos, from);
    var f := Search(peers, from);
    if f.OnePeer? {
      ParsedSuffix(peers, pos, f.next);
    }
  }

  /** A peer at the front is found whole, whether or not something follows its space. */
  lemma PeerAtFront(arg: string, peers: string)
    requires IsPeer(arg) && ' ' !in arg && arg <= peers
    requires |arg| < |peers| ==> peers[|arg|] == ' '
    ensures Search(peers, 0) == if arg == peers then LastPeer(SplitPeer(arg)) else OnePeer(SplitPeer(arg), |arg| + 1)
  {
    var k := Find(arg, ':', 0);
    assert arg[0..] == arg;
    FindHit(arg, ':', 0);
    FindFirst(arg, ':', 0);
    FindIs(peers, ':', 0, k);
    forall j | k <= j < |arg| ensures peers[j] != ' ' {
      assert peers[j] == arg[j];
    }
    FindIs(peers, ' ', k, |arg|);
    assert peers[0..k] == arg[..k];
    assert peers[k + 1..|arg|] == arg[k + 1..];
  }

  lemma BehindSpace(arg: string, rest: string)
    ensures var peers := arg + " " + rest;
            arg <= peers && |arg| < |peers| && peers[|arg|] == ' ' && peers[|arg| + 1..] == rest
  {
  }

  /** The first peer is taken off the front with the space behind it. */
  lemma FirstPeer(arg: string, peers: string, rest: string)
    requires IsPeer(arg) && ' ' !in arg && arg <= peers && |arg| < |peers|
    requires peers[|arg|] == ' ' && peers[|arg| + 1..] == rest
    ensures ParsedFrom(peers, 0) == [SplitPeer(arg)] + ParsedFrom(rest, 0)
  {
    PeerAtFront(arg, peers);
    ParsedSuffix(peers, |arg| + 1, |arg| + 1);
  }

  /** Parsing the joined string yields exactly the arguments that contain ':', each split at its first
      ':', in their order. */
  lemma {:induction false} PeersRoundTrip(args: seq<string>, i: nat)
    requires NoSpaces(args) && i <= |args|
    ensures ParsedFrom(JoinedFrom(args, i), 0) == PeersOf(args[i..])
    decreases |args| - i
  {
    if i < |args| {
      PeersRoundTrip(args, i + 1);
      assert args[i..][0] == args[i] && args[i..][1..] == args[i + 1..];
      var rest := JoinedFrom(args, i + 1);
      if !IsPeer(args[i]) {
        assert JoinedFrom(args, i) == rest;
      } else {
        if i == |args| - 1 {
          PeerAtFront(args[i], args[i]);
          assert JoinedFrom(args, i) == args[i];
        } else {
          BehindSpace(args[i], rest);
          FirstPeer(args[i], args[i] + " " + rest, rest);
          assert JoinedFrom(args, i) == args[i] + " " + rest;
        }
      }
    } else {
      assert args[i..] == [];
    }
  }

  /** Configured and parsed, as the two loops do it. */
  method Configure(args: seq<string>) returns (list: ServerList, ret: int)
    requires NoSpaces(args)
    ensures fresh(list)
    ensures list.servers == PeersOf(args)
  {
    list := new ServerList();
    var peers := JoinPeers(args);
    PeersRoundTrip(args, 0);
    assert args[0..] == args;
    assert ParsedFrom("", 0) == [];
    ret := list.Init(peers);
  }
}
