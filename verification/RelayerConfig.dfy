/** The relayer's configuration: chains, the paths between them, and the file that holds both. */
module RelayerConfig {
  import opened Common

  const SUPPORT_VERSION := "2"

  datatype Chain = Chain(
    id: string,
    account: string,
    addressPrefix: string,
    rpcAddress: string,
    gasPrice: string,
    gasLimit: int,
    clientID: string)

  datatype PathEnd = PathEnd(
    chainID: string,
    connectionID: string,
    channelID: string,
    portID: string,
    version: string,
    packetHeight: int,
    ackHeight: int)

  datatype Path = Path(id: string, ordering: string, src: PathEnd, dst: PathEnd)

  datatype Config = Config(version: string, chains: seq<Chain>, paths: seq<Path>)

  const EMPTY := Config("", [], [])

  function FindChain(chains: seq<Chain>, id: string): Option<Chain> {
    if chains == [] then None
    else if chains[0].id == id then Some(chains[0])
    else FindChain(chains[1..], id)
  }

  function FindPath(paths: seq<Path>, id: string): Option<Path> {
    if paths == [] then None
    else if paths[0].id == id then Some(paths[0])
    else FindPath(paths[1..], id)
  }

  /** The list with the first path of p's ID replaced by p. */
  function Updated(paths: seq<Path>, p: Path): (r: seq<Path>)
    ensures |r| == |paths|
  {
    if paths == [] then []
    else if paths[0].id == p.id then [p] + paths[1..]
    else [paths[0]] + Updated(paths[1..], p)
  }

  function Commit(c: Config, p: Path): Config {
    c.(version := SUPPORT_VERSION, paths := Updated(c.paths, p))
  }

  predicate DistinctPaths(paths: seq<Path>) {
    forall i, j :: 0 <= i < j < |paths| ==> paths[i].id != paths[j].id
  }

  predicate DistinctChains(chains: seq<Chain>) {
    forall i, j :: 0 <= i < j < |chains| ==> chains[i].id != chains[j].id
  }

  /** Both chains of the path are in the configuration. */
  predicate HasChains(c: Config, p: Path) {
    FindChain(c.chains, p.src.chainID).Some? && FindChain(c.chains, p.dst.chainID).Some?
  }

  predicate Resolves(c: Config) {
    forall i :: 0 <= i < |c.paths| ==> HasChains(c, c.paths[i])
  }

  predicate WellFormed(c: Config) {
    DistinctPaths(c.paths) && DistinctChains(c.chains) && Resolves(c)
  }

  /** A reply for a path may change everything but its ID and the chains it links. */
  predicate SameIdentity(p: Path, q: Path) {
    p.id == q.id && p.src.chainID == q.src.chainID && p.dst.chainID == q.dst.chainID
  }

  lemma {:induction false} FindPathMeans(paths: seq<Path>, id: string)
    ensures FindPath(paths, id).Some? <==> exists i :: 0 <= i < |paths| && paths[i].id == id
    ensures FindPath(paths, id).Some? ==>
      FindPath(paths, id).value in paths && FindPath(paths, id).value.id == id
  {
    if paths != [] {
      FindPathMeans(paths[1..], id);
      assert forall i :: 0 <= i < |paths[1..]| ==> paths[1..][i] == paths[i + 1];
      if i :| 0 < i < |paths| && paths[i].id == id {
        assert paths[1..][i - 1].id == id;
      }
    }
  }

  lemma {:induction false} FindChainMeans(chains: seq<Chain>, id: string)
    ensures FindChain(chains, id).Some? <==> exists i :: 0 <= i < |chains| && chains[i].id == id
    ensures FindChain(chains, id).Some? ==>
      FindChain(chains, id).value in chains && FindChain(chains, id).value.id == id
  {
    if chains != [] {
      FindChainMeans(chains[1..], id);
      if i :| 0 < i < |chains| && chains[i].id == id {
        assert chains[1..][i - 1].id == id;
      }
    }
  }

  /** An update is visible under its own ID and nowhere else. */
  lemma {:induction false} FindUpdated(paths: seq<Path>, p: Path, id: string)
    ensures FindPath(Updated(paths, p), id) ==
      if id == p.id && FindPath(paths, id).Some? then Some(p) else FindPath(paths, id)
  {
    if paths != [] && paths[0].id != p.id {
      FindUpdated(paths[1..], p, id);
      assert Updated(paths, p)[1..] == Updated(paths[1..], p);
    } else if paths != [] {
      assert Updated(paths, p)[1..] == paths[1..];
    }
  }

  /** What an update leaves in each position. */
  lemma {:induction false} UpdatedAt(paths: seq<Path>, p: Path)
    ensures forall i :: 0 <= i < |paths| ==>
      Updated(paths, p)[i] == paths[i] || (Updated(paths, p)[i] == p && paths[i].id == p.id
                                           && FindPath(paths, p.id) == Some(paths[i]))
  {
    if paths != [] && paths[0].id != p.id {
      UpdatedAt(paths[1..], p);
      assert forall i :: 0 < i < |paths| ==>
        Updated(paths, p)[i] == Updated(paths[1..], p)[i - 1] && paths[i] == paths[1..][i - 1];
    }
  }

  /** A loaded configuration. Copying it copies the slice header, so the paths stay shared. */
  datatype Loaded = Loaded(version: string, chains: seq<Chain>, paths: array<Path>)

  method ChainByID(c: Loaded, id: string) returns (chain: Option<Chain>)
    ensures chain == FindChain(c.chains, id)
  {
    for i := 0 to |c.chains|
      invariant FindChain(c.chains, id) == FindChain(c.chains[i..], id)
    {
      assert c.chains[i..][1..] == c.chains[i + 1..];
      if c.chains[i].id == id {
        return Some(c.chains[i]);
      }
    }
    return None;
  }

  method PathByID(c: Loaded, id: string) returns (path: Option<Path>)
    ensures path == FindPath(c.paths[..], id)
  {
    assert c.paths[0..] == c.paths[..];
    for i := 0 to c.paths.Length
      invariant FindPath(c.paths[..], id) == FindPath(c.paths[i..], id)
    {
      assert c.paths[i..][1..] == c.paths[i + 1..];
      if c.paths[i].id == id {
        return Some(c.paths[i]);
      }
    }
    return None;
  }

  lemma {:induction false} UpdatedSkips(paths: seq<Path>, p: Path, k: nat)
    requires k <= |paths|
    requires forall j :: 0 <= j < k ==> paths[j].id != p.id
    ensures Updated(paths, p) == paths[..k] + Updated(paths[k..], p)
    ensures FindPath(paths, p.id) == FindPath(paths[k..], p.id)
  {
    if k > 0 {
      UpdatedSkips(paths[1..], p, k - 1);
      assert paths[1..][k - 1..] == paths[k..];
      assert paths[..k] == [paths[0]] + paths[1..][..k - 1];
    } else {
      assert paths[0..] == paths;
    }
  }

  /** Writes through the shared slice: the caller's configuration changes too. */
  method UpdatePath(c: Loaded, path: Path) returns (found: bool)
    modifies c.paths
    ensures c.paths[..] == Updated(old(c.paths[..]), path)
    ensures found == FindPath(old(c.paths[..]), path.id).Some?
  {
    ghost var before := c.paths[..];
    for i := 0 to c.paths.Length
      invariant c.paths[..] == before
      invariant forall j :: 0 <= j < i ==> before[j].id != path.id
    {
      if c.paths[i].id == path.id {
        UpdatedSkips(before, path, i);
        c.paths[i] := path;
        return true;
      }
    }
    UpdatedSkips(before, path, |before|);
    return false;
  }

  /** The file under the user's home; a missing file loads as the empty configuration. */
  class File {
    var content: Config

    /** Fails when the file was written by another version of the tool. */
    method Get() returns (r: Result<Loaded, string>)
      ensures r.Ok? <==> (content == EMPTY || content.version == SUPPORT_VERSION)
      ensures r.Ok? ==> fresh(r.value.paths) && r.value.paths[..] == content.paths
                        && r.value.chains == content.chains && r.value.version == content.version
    {
      if content != EMPTY && content.version != SUPPORT_VERSION {
        return Err("your relayer setup is outdated");
      }
      var paths := new Path[|content.paths|](i requires 0 <= i < |content.paths| reads this => content.paths[i]);
      return Ok(Loaded(content.version, content.chains, paths));
    }

    method Save(c: Loaded)
      modifies this
      ensures content == Config(SUPPORT_VERSION, c.chains, c.paths[..])
    {
      content := Config(SUPPORT_VERSION, c.chains, c.paths[..]);
    }
  }
}
