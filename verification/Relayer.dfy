/** Setting chains up, connecting them with freshly named paths, and linking the paths. */
module Relayer {
  import opened Common
  import opened Decimal
  import opened RelayerConfig

  // ----- Fresh path names -----

  /** The k-th name tried for a path: the base, then the base with -2, -3, ... */
  function Guess(base: string, k: nat): string {
    if k == 0 then base else base + "-" + Digits(k + 1)
  }

  /** The names tried: "a-b", "a-b-2", "a-b-3", and so on. */
  lemma GuessNames(base: string, k: nat)
    ensures Guess(base, 0) == base && Guess(base, 1) == base + "-2" && Guess(base, 2) == base + "-3"
    ensures k >= 1 ==> Guess(base, k) == base + "-" + Digits(k + 1)
  {
    assert "-" + "2" == "-2" && "-" + "3" == "-3";
  }

  lemma GuessInjective(base: string, j: nat, k: nat)
    requires Guess(base, j) == Guess(base, k)
    ensures j == k
  {
    if j > 0 && k > 0 {
      assert Guess(base, j)[|base| + 1..] == Digits(j + 1);
      assert Guess(base, k)[|base| + 1..] == Digits(k + 1);
      DigitsInjective(j + 1, k + 1);
    }
  }

  ghost function Tried(base: string, k: nat): (r: set<string>)
    ensures forall g :: g in r <==> exists j :: 0 <= j < k && g == Guess(base, j)
  {
    if k == 0 then {} else Tried(base, k - 1) + {Guess(base, k - 1)}
  }

  ghost function IDs(paths: seq<Path>): (r: set<string>)
    ensures |r| <= |paths|
    ensures forall i :: 0 <= i < |paths| ==> paths[i].id in r
  {
    if paths == [] then {} else {paths[0].id} + IDs(paths[1..])
  }

  lemma {:induction false} TriedCount(base: string, k: nat)
    ensures |Tried(base, k)| == k
  {
    if k > 0 {
      TriedCount(base, k - 1);
      if Guess(base, k - 1) in Tried(base, k - 1) {
        var j :| 0 <= j < k - 1 && Guess(base, k - 1) == Guess(base, j);
        GuessInjective(base, j, k - 1);
      }
    }
  }

  predicate Taken(paths: seq<Path>, id: string) {
    FindPath(paths, id).Some?
  }

  predicate FirstFree(paths: seq<Path>, base: string, k: nat) {
    !Taken(paths, Guess(base, k)) && forall j :: 0 <= j < k ==> Taken(paths, Guess(base, j))
  }

  /** Pigeonhole: a configuration cannot use up more names than it has paths. */
  lemma TakenBound(paths: seq<Path>, base: string, k: nat)
    requires forall j :: 0 <= j < k ==> Taken(paths, Guess(base, j))
    ensures k <= |paths|
  {
    forall g | g in Tried(base, k) ensures g in IDs(paths) {
      FindPathMeans(paths, g);
    }
    TriedCount(base, k);
    SubsetCount(Tried(base, k), IDs(paths));
  }

  // ----- Chain setup -----

  function Override(was: string, now: string): string {
    if now == "" then was else now
  }

  /** mergo.Merge with override: the non-empty fields of `now` win. */
  function Merged(was: Chain, now: Chain): Chain {
    Chain(Override(was.id, now.id), Override(was.account, now.account),
          Override(was.addressPrefix, now.addressPrefix), Override(was.rpcAddress, now.rpcAddress),
          Override(was.gasPrice, now.gasPrice), if now.gasLimit == 0 then was.gasLimit else now.gasLimit,
          Override(was.clientID, now.clientID))
  }

  /** The chains in front of the others, unless there is an error. */
  function Prepended(front: seq<Chain>, rest: Result<seq<Chain>, string>): Result<seq<Chain>, string> {
    match rest
    case Ok(chains) => Ok(front + chains)
    case Err(e) => Err(e)
  }

  function SetupSpec(chains: seq<Chain>, chain: Chain): Result<seq<Chain>, string> {
    if chains == [] then Ok([chain])
    else if chains[0].id == chain.id then
      if chains[0].rpcAddress != chain.rpcAddress then Err("rpc endpoint already exists with a different chain id")
      else Ok([Merged(chains[0], chain)] + chains[1..])
    else
      match SetupSpec(chains[1..], chain)
      case Ok(rest) => Ok([chains[0]] + rest)
      case Err(e) => Err(e)
  }

  lemma {:induction false} SetupSkips(chains: seq<Chain>, chain: Chain, k: nat)
    requires k <= |chains|
    requires forall j :: 0 <= j < k ==> chains[j].id != chain.id
    ensures SetupSpec(chains, chain) == Prepended(chains[..k], SetupSpec(chains[k..], chain))
  {
    if k > 0 {
      SetupSkips(chains[1..], chain, k - 1);
      assert chains[1..][k - 1..] == chains[k..];
      var tail := SetupSpec(chains[k..], chain);
      if tail.Ok? {
        assert chains[..k] + tail.value == [chains[0]] + (chains[1..][..k - 1] + tail.value);
      }
    } else {
      assert chains[0..] == chains;
      var all := SetupSpec(chains, chain);
      assert all.Ok? ==> chains[..0] + all.value == all.value;
    }
  }

  predicate Readable(c: Config) {
    c == EMPTY || c.version == SUPPORT_VERSION
  }

  /** A missing file can be read, and so can whatever is saved; a file of another version of the tool cannot. */
  lemma ReadableFiles(c: Config)
    ensures Readable(EMPTY) && Readable(Config("2", c.chains, c.paths))
    ensures c != EMPTY && c.version != "2" ==> !Readable(c)
  {
  }

  /** ensureChainSetup, once the node has told its chain ID. */
  method EnsureChainSetup(file: File, chain: Chain) returns (err: Option<string>)
    modifies file
    ensures !Readable(old(file.content)) ==> err.Some? && file.content == old(file.content)
    ensures Readable(old(file.content)) ==>
      match SetupSpec(old(file.content.chains), chain)
      case Ok(chains) => err.None? && file.content == Config(SUPPORT_VERSION, chains, old(file.content.paths))
      case Err(e) => err == Some(e) && file.content == old(file.content)
  {
    var loaded := file.Get();
    if loaded.Err? {
      return Some(loaded.error);
    }
    var chains := loaded.value.chains;
    var found := false;
    for i := 0 to |chains|
      invariant !found && chains == loaded.value.chains
      invariant forall j :: 0 <= j < i ==> chains[j].id != chain.id
    {
      if chains[i].id == chain.id {
        SetupSkips(chains, chain, i);
        if chains[i].rpcAddress != chain.rpcAddress {
          return Some("rpc endpoint already exists with a different chain id");
        }
        chains := chains[i := Merged(chains[i], chain)];
        found := true;
        break;
      }
    }
    if !found {
      SetupSkips(chains, chain, |chains|);
      chains := chains + [chain];
    }
    file.Save(loaded.value.(chains := chains));
    return None;
  }

  // ----- Connect -----

  datatype ChannelOptions = ChannelOptions(
    sourcePort: string, sourceVersion: string, targetPort: string, targetVersion: string, ordering: string)

  function NewPath(id: string, src: string, dst: string, o: ChannelOptions): Path {
    Path(id, o.ordering, PathEnd(src, "", "", o.sourcePort, o.sourceVersion, 0, 0),
         PathEnd(dst, "", "", o.targetPort, o.targetVersion, 0, 0))
  }

  function WithPath(c: Config, p: Path): Config {
    c.(version := SUPPORT_VERSION, paths := c.paths + [p])
  }

  /** The naming loop ends for every configuration and picks the first free name. */
  method Connect(file: File, src: string, dst: string, o: ChannelOptions) returns (r: Result<string, string>)
    modifies file
    ensures r.Ok? <==> Readable(old(file.content))
    ensures r.Err? ==> file.content == old(file.content)
    ensures r.Ok? ==>
      && file.content == WithPath(old(file.content), NewPath(r.value, src, dst, o))
      && exists k :: 0 <= k <= |old(file.content).paths| && r.value == Guess(src + "-" + dst, k)
                     && FirstFree(old(file.content).paths, src + "-" + dst, k)
  {
    var loaded := file.Get();
    if loaded.Err? {
      return Err(loaded.error);
    }
    var conf := loaded.value;
    var base := src + "-" + dst;
    var pathID := base;
    var suffix := "";
    var i := 2;
    ghost var paths := conf.paths[..];
    ghost var k := 0;
    while true
      invariant i == k + 2 && base + suffix == Guess(base, k)
      invariant conf.paths[..] == paths
      invariant forall j :: 0 <= j < k ==> Taken(paths, Guess(base, j))
      decreases |paths| - k
    {
      TakenBound(paths, base, k);
      var guess := base + suffix;
      var taken := PathByID(conf, guess);
      if taken.None? {
        pathID := guess;
        break;
      }
      suffix := "-" + Digits(i);
      i := i + 1;
      k := k + 1;
      assert base + suffix == Guess(base, k);
      TakenBound(paths, base, k);
    }
    var n := conf.paths.Length;
    var path := NewPath(pathID, src, dst, o);
    var appended := new Path[n + 1](j requires 0 <= j <= n reads conf.paths =>
      if j < n then conf.paths[j] else path);
    assert appended[..] == paths + [path];
    file.Save(conf.(paths := appended));
    assert pathID == Guess(base, k) && FirstFree(paths, base, k);
    return Ok(pathID);
  }

  // ----- Link -----

  /** The remote relayer: its reply to the n-th call, or None when the call fails. */
  type Remote = (nat, Path) -> Option<Path>

  ghost predicate KeepsIdentity(remote: Remote) {
    forall n, p :: remote(n, p).Some? ==> SameIdentity(p, remote(n, p).value)
  }

  ghost predicate OpensChannels(remote: Remote) {
    forall n, p :: remote(n, p).Some? ==> remote(n, p).value.src.channelID != ""
  }

  /** The configuration after linking, the path IDs the remote was called for, and whether it succeeded. A path
      whose chains are not in the configuration ends it without a call. */
  datatype Linked = Linked(config: Config, called: seq<string>, ok: bool)

  function LinkSpec(c: Config, remote: Remote, n: nat, ids: seq<string>): Linked
    decreases |ids|
  {
    if ids == [] then Linked(c, [], true)
    else
      match FindPath(c.paths, ids[0])
      case None => Linked(c, [], false)
      case Some(path) =>
        if path.src.channelID != "" then LinkSpec(c, remote, n, ids[1..])
        else if !HasChains(c, path) then Linked(c, [], false)
        else
          match remote(n, path)
          case None => Linked(c, [ids[0]], false)
          case Some(reply) =>
            if FindPath(c.paths, reply.id).None? then Linked(c, [ids[0]], false)
            else
              var rest := LinkSpec(Commit(c, reply), remote, n + 1, ids[1..]);
              rest.(called := [ids[0]] + rest.called)
  }

  /** What linking one path comes to: the configuration after it, whether the remote was called, and whether the
      loop goes on. */
  datatype Attempt = Attempt(config: Config, called: bool, ok: bool)

  function LinkOne(c: Config, remote: Remote, n: nat, id: string): Attempt {
    match FindPath(c.paths, id)
    case None => Attempt(c, false, false)
    case Some(path) =>
      if path.src.channelID != "" then Attempt(c, false, true)
      else if !HasChains(c, path) then Attempt(c, false, false)
      else
        match remote(n, path)
        case None => Attempt(c, true, false)
        case Some(reply) =>
          if FindPath(c.paths, reply.id).None? then Attempt(c, true, false) else Attempt(Commit(c, reply), true, true)
  }

  function AfterOne(a: Attempt, id: string, rest: Linked): Linked {
    var called := if a.called then [id] else [];
    if a.ok then rest.(called := called + rest.called) else Linked(a.config, called, false)
  }

  lemma LinkFirst(c: Config, remote: Remote, n: nat, ids: seq<string>)
    requires ids != []
    ensures
      var a := LinkOne(c, remote, n, ids[0]);
      LinkSpec(c, remote, n, ids) ==
      AfterOne(a, ids[0], LinkSpec(a.config, remote, if a.called then n + 1 else n, ids[1..]))
  {
    var a := LinkOne(c, remote, n, ids[0]);
    var rest := LinkSpec(a.config, remote, if a.called then n + 1 else n, ids[1..]);
    assert [] + rest.called == rest.called;
  }

  /** One round of Link: the reply is put into the loaded configuration, which is then saved. */
  method LinkPath(file: File, conf: Loaded, remote: Remote, n: nat, id: string) returns (called: bool, ok: bool)
    requires conf.paths[..] == file.content.paths && conf.chains == file.content.chains
    modifies file, conf.paths
    ensures Attempt(file.content, called, ok) == LinkOne(old(file.content), remote, n, id)
    ensures ok ==> conf.paths[..] == file.content.paths && conf.chains == file.content.chains
  {
    called, ok := false, false;
    var path := PathByID(conf, id);
    if path.None? {
      return;
    }
    if path.value.src.channelID != "" {
      return false, true;
    }
    var srcChain := ChainByID(conf, path.value.src.chainID);
    var dstChain := ChainByID(conf, path.value.dst.chainID);
    if srcChain.None? || dstChain.None? {
      return;
    }
    called := true;
    var reply := remote(n, path.value);
    if reply.None? {
      return;
    }
    var found := UpdatePath(conf, reply.value);
    if !found {
      return;
    }
    file.Save(conf);
    ok := true;
  }

  lemma CalledMore(a: seq<string>, id: string, b: seq<string>)
    ensures a + ([id] + b) == a + [id] + b && a + ([] + b) == a + b
  {
  }

  /** Link works on one loaded configuration, which each UpdatePath changes in place, and saves it after
      every reply. */
  method Link(file: File, remote: Remote, ids: seq<string>) returns (ok: bool, called: seq<string>)
    modifies file
    ensures !Readable(old(file.content)) ==> !ok && called == [] && file.content == old(file.content)
    ensures Readable(old(file.content)) ==>
      var spec := LinkSpec(old(file.content), remote, 0, ids);
      ok == spec.ok && called == spec.called && file.content == spec.config
  {
    called := [];
    var loaded := file.Get();
    if loaded.Err? {
      return false, [];
    }
    var conf := loaded.value;
    ghost var spec := LinkSpec(file.content, remote, 0, ids);
    assert ids[0..] == ids;
    for i := 0 to |ids|
      invariant fresh(conf.paths) && conf.paths[..] == file.content.paths && conf.chains == file.content.chains
      invariant
        var rest := LinkSpec(file.content, remote, |called|, ids[i..]);
        spec == Linked(rest.config, called + rest.called, rest.ok)
    {
      ghost var before, rest := file.content, ids[i..];
      assert rest[0] == ids[i] && rest[1..] == ids[i + 1..];
      LinkFirst(before, remote, |called|, rest);
      var wasCalled, goOn := LinkPath(file, conf, remote, |called|, ids[i]);
      ghost var a := LinkOne(before, remote, |called|, ids[i]);
      ghost var next := LinkSpec(a.config, remote, if a.called then |called| + 1 else |called|, rest[1..]);
      CalledMore(called, ids[i], next.called);
      called := if wasCalled then called + [ids[i]] else called;
      if !goOn {
        return false, called;
      }
    }
    assert ids[|ids|..] == [];
    ok := true;
  }

  lemma {:induction false} UpdatedMissing(paths: seq<Path>, p: Path)
    requires FindPath(paths, p.id).None?
    ensures Updated(paths, p) == paths
  {
    if paths != [] {
      UpdatedMissing(paths[1..], p);
    }
  }
}
