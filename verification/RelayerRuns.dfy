/** Properties of the relayer over whole runs: links are made once, the configuration stays well formed,
    and no interleaving of the relaying loops loses an update. */
module RelayerRuns {
  import opened Common
  import opened RelayerConfig
  import opened Relayer

  // ----- Link is idempotent -----

  predicate IsLinked(c: Config, id: string) {
    FindPath(c.paths, id).Some? && FindPath(c.paths, id).value.src.channelID != ""
  }

  /** The n-th call is for this path, and fails. */
  predicate FailedCall(c: Config, remote: Remote, n: nat, id: string) {
    FindPath(c.paths, id).Some? && remote(n, FindPath(c.paths, id).value).None?
  }

  /** A run of Link keeps every link, calls no linked path, calls no path twice, and links each path it
      called but the last one of a run that stops, if that call failed. */
  lemma {:induction false} LinksOnce(c: Config, remote: Remote, n: nat, ids: seq<string>)
    requires KeepsIdentity(remote) && OpensChannels(remote)
    ensures
      var l := LinkSpec(c, remote, n, ids);
      && (forall id :: IsLinked(c, id) ==> IsLinked(l.config, id) && id !in l.called)
      && (forall i, j :: 0 <= i < j < |l.called| ==> l.called[i] != l.called[j])
      && (forall i :: 0 <= i < |l.called| ==>
           || IsLinked(l.config, l.called[i])
           || (!l.ok && i == |l.called| - 1 && FailedCall(l.config, remote, n + i, l.called[i])))
      && (l.ok ==> forall i :: 0 <= i < |ids| ==> IsLinked(l.config, ids[i]))
    decreases |ids|
  {
    if ids != [] && FindPath(c.paths, ids[0]).Some? {
      var path := FindPath(c.paths, ids[0]).value;
      FindPathMeans(c.paths, ids[0]);
      if path.src.channelID != "" {
        LinksOnce(c, remote, n, ids[1..]);
      } else if HasChains(c, path) && remote(n, path).Some? {
        var reply := remote(n, path).value;
        assert SameIdentity(path, reply);
        var c' := Commit(c, reply);
        forall id ensures FindPath(c'.paths, id) == if id == reply.id then Some(reply) else FindPath(c.paths, id) {
          FindUpdated(c.paths, reply, id);
        }
        LinksOnce(c', remote, n + 1, ids[1..]);
        assert IsLinked(c', ids[0]);
      }
    }
  }

  /** Link succeeds without any call exactly when every given path is linked, and then changes nothing. */
  lemma {:induction false} QuietLink(c: Config, remote: Remote, n: nat, ids: seq<string>)
    ensures
      var l := LinkSpec(c, remote, n, ids);
      && (l.ok && l.called == [] <==> forall i :: 0 <= i < |ids| ==> IsLinked(c, ids[i]))
      && (l.called == [] ==> l.config == c)
    decreases |ids|
  {
    if ids != [] && IsLinked(c, ids[0]) {
      QuietLink(c, remote, n, ids[1..]);
      assert forall i :: 0 < i < |ids| ==> ids[i] == ids[1..][i - 1];
      assert forall i :: 0 <= i < |ids[1..]| ==> ids[1..][i] == ids[i + 1];
    }
  }

  /** After a successful Link, linking the same paths again makes no call and leaves the file unchanged. */
  lemma LinkTwice(c: Config, remote: Remote, remote': Remote, ids: seq<string>)
    requires KeepsIdentity(remote) && OpensChannels(remote) && LinkSpec(c, remote, 0, ids).ok
    ensures
      var c' := LinkSpec(c, remote, 0, ids).config;
      LinkSpec(c', remote', 0, ids) == Linked(c', [], true)
  {
    LinksOnce(c, remote, 0, ids);
    QuietLink(LinkSpec(c, remote, 0, ids).config, remote', 0, ids);
  }

  /** After a Link that stopped midway, a later Link of any paths repeats no call that was answered. */
  lemma LinkResumes(c: Config, remote: Remote, remote': Remote, ids: seq<string>, ids': seq<string>)
    requires KeepsIdentity(remote) && OpensChannels(remote) && KeepsIdentity(remote') && OpensChannels(remote')
    ensures
      var first := LinkSpec(c, remote, 0, ids);
      var second := LinkSpec(first.config, remote', 0, ids');
      forall i :: 0 <= i < |first.called| ==>
        || first.called[i] !in second.called
        || (!first.ok && i == |first.called| - 1 && FailedCall(first.config, remote, i, first.called[i]))
  {
    LinksOnce(c, remote, 0, ids);
    LinksOnce(LinkSpec(c, remote, 0, ids).config, remote', 0, ids');
  }

  // ----- What Link calls and stores -----

  /** The path can be linked, or is. */
  predicate Linkable(c: Config, id: string) {
    FindPath(c.paths, id).Some? && (IsLinked(c, id) || HasChains(c, FindPath(c.paths, id).value))
  }

  /** The remote's answer to the i-th call, which is for the path as it was at first. */
  function AnswerOf(c: Config, remote: Remote, called: seq<string>, n: nat, i: nat): Option<Path>
    requires i < |called|
  {
    if FindPath(c.paths, called[i]).None? then None else remote(n + i, FindPath(c.paths, called[i]).value)
  }

  predicate Stored(c: Config, remote: Remote, l: Linked, n: nat, i: nat)
    requires i < |l.called|
  {
    FindPath(l.config.paths, l.called[i]) ==
    if AnswerOf(c, remote, l.called, n, i).Some? then AnswerOf(c, remote, l.called, n, i)
    else FindPath(c.paths, l.called[i])
  }

  lemma CommitMeans(c: Config, reply: Path)
    requires FindPath(c.paths, reply.id).Some? && HasChains(c, reply)
    requires SameIdentity(FindPath(c.paths, reply.id).value, reply) && reply.src.channelID != ""
    ensures
      var d := Commit(c, reply);
      && d.chains == c.chains
      && (forall id ::
           FindPath(d.paths, id) == if id == reply.id then Some(reply) else FindPath(c.paths, id))
      && (forall id :: Linkable(d, id) <==> Linkable(c, id))
      && (forall id :: IsLinked(d, id) <==> IsLinked(c, id) || id == reply.id)
  {
    var d := Commit(c, reply);
    forall id ensures FindPath(d.paths, id) == if id == reply.id then Some(reply) else FindPath(c.paths, id) {
      FindUpdated(c.paths, reply, id);
    }
  }

  /** A run whose first path is called and answered, and the rest of the run. */
  lemma LinkAfterCall(c: Config, remote: Remote, n: nat, ids: seq<string>, path: Path, reply: Path)
    requires KeepsIdentity(remote) && OpensChannels(remote) && ids != []
    requires FindPath(c.paths, ids[0]) == Some(path) && !IsLinked(c, ids[0]) && HasChains(c, path)
    requires remote(n, path) == Some(reply)
    ensures SameIdentity(path, reply) && reply.id == ids[0] && reply.src.channelID != ""
    ensures
      var rest := LinkSpec(Commit(c, reply), remote, n + 1, ids[1..]);
      LinkSpec(c, remote, n, ids) == Linked(rest.config, [ids[0]] + rest.called, rest.ok)
  {
    FindPathMeans(c.paths, ids[0]);
  }

  /** Link stores the reply to each call that is answered, under the ID it was made for, and changes nothing else;
      it succeeds exactly when every given path is linked or can be, and all its calls are answered. */
  lemma {:induction false} LinkStores(c: Config, remote: Remote, n: nat, ids: seq<string>)
    requires KeepsIdentity(remote) && OpensChannels(remote)
    ensures
      var l := LinkSpec(c, remote, n, ids);
      && l.config.chains == c.chains
      && (forall id :: id !in l.called ==> FindPath(l.config.paths, id) == FindPath(c.paths, id))
      && (forall i: nat :: i < |l.called| ==> Stored(c, remote, l, n, i))
      && (l.ok <==>
           && (forall i :: 0 <= i < |ids| ==> Linkable(c, ids[i]))
           && (forall i: nat :: i < |l.called| ==> AnswerOf(c, remote, l.called, n, i).Some?))
    decreases |ids|
  {
    if ids != [] && Linkable(c, ids[0]) {
      var path, rest := FindPath(c.paths, ids[0]).value, ids[1..];
      assert forall i :: 0 < i < |ids| ==> ids[i] == rest[i - 1];
      assert forall i :: 0 <= i < |rest| ==> rest[i] == ids[i + 1];
      if IsLinked(c, ids[0]) {
        LinkStores(c, remote, n, rest);
      } else if remote(n, path).Some? {
        var reply := remote(n, path).value;
        LinkAfterCall(c, remote, n, ids, path, reply);
        CommitMeans(c, reply);
        LinkStores(Commit(c, reply), remote, n + 1, rest);
        LinksOnce(Commit(c, reply), remote, n + 1, rest);
        StoredNext(c, remote, n, n + 1, ids[0], reply, LinkSpec(Commit(c, reply), remote, n + 1, rest));
      } else {
        assert AnswerOf(c, remote, [ids[0]], n, 0).None?;
      }
    }
  }

  /** What holds of the calls of the rest of a run holds of all. */
  lemma StoredNext(c: Config, remote: Remote, n: nat, next: nat, id: string, reply: Path, rest: Linked)
    requires FindPath(c.paths, id).Some? && remote(n, FindPath(c.paths, id).value) == Some(reply) && reply.id == id
    requires next == n + 1
    requires forall x :: FindPath(Commit(c, reply).paths, x) == if x == id then Some(reply) else FindPath(c.paths, x)
    requires id !in rest.called && FindPath(rest.config.paths, id) == Some(reply)
    requires forall i: nat :: i < |rest.called| ==> Stored(Commit(c, reply), remote, rest, next, i)
    ensures
      var l := Linked(rest.config, [id] + rest.called, rest.ok);
      && (forall i: nat :: i < |l.called| ==> Stored(c, remote, l, n, i))
      && ((forall i: nat :: i < |l.called| ==> AnswerOf(c, remote, l.called, n, i).Some?) <==>
          (forall i: nat :: i < |rest.called| ==> AnswerOf(Commit(c, reply), remote, rest.called, next, i).Some?))
  {
    var l := Linked(rest.config, [id] + rest.called, rest.ok);
    assert AnswerOf(c, remote, l.called, n, 0) == Some(reply);
    forall i: nat | i < |l.called| ensures Stored(c, remote, l, n, i) {
      if i > 0 {
        StoredAt(c, remote, n, next, id, reply, rest, i - 1);
      }
    }
    if forall i: nat :: i < |rest.called| ==> AnswerOf(Commit(c, reply), remote, rest.called, next, i).Some? {
      forall i: nat | i < |l.called| ensures AnswerOf(c, remote, l.called, n, i).Some? {
        if i > 0 {
          StoredAt(c, remote, n, next, id, reply, rest, i - 1);
        }
      }
    }
    if forall i: nat :: i < |l.called| ==> AnswerOf(c, remote, l.called, n, i).Some? {
      forall i: nat | i < |rest.called| ensures AnswerOf(Commit(c, reply), remote, rest.called, next, i).Some? {
        StoredAt(c, remote, n, next, id, reply, rest, i);
        assert AnswerOf(c, remote, l.called, n, i + 1).Some?;
      }
    }
  }

  lemma StoredAt(c: Config, remote: Remote, n: nat, next: nat, id: string, reply: Path, rest: Linked,
                 i: nat)
    requires next == n + 1
    requires forall x :: FindPath(Commit(c, reply).paths, x) == if x == id then Some(reply) else FindPath(c.paths, x)
    requires i < |rest.called| && id !in rest.called && Stored(Commit(c, reply), remote, rest, next, i)
    ensures
      var l := Linked(rest.config, [id] + rest.called, rest.ok);
      && AnswerOf(c, remote, l.called, n, i + 1) == AnswerOf(Commit(c, reply), remote, rest.called, next, i)
      && Stored(c, remote, l, n, i + 1)
  {
    assert rest.called[i] in rest.called;
  }

  /** The given IDs that are neither linked nor in `done`, each once, in the order in which they are given. */
  function ToLink(linked: string -> bool, done: set<string>, ids: seq<string>): seq<string>
    decreases |ids|
  {
    if ids == [] then []
    else if linked(ids[0]) || ids[0] in done then ToLink(linked, done, ids[1..])
    else [ids[0]] + ToLink(linked, done + {ids[0]}, ids[1..])
  }

  lemma {:induction false} SameToLink(f: string -> bool, d: set<string>, g: string -> bool, e: set<string>,
                                      ids: seq<string>)
    requires forall x :: f(x) || x in d <==> g(x) || x in e
    ensures ToLink(f, d, ids) == ToLink(g, e, ids)
    decreases |ids|
  {
    if ids != [] {
      if f(ids[0]) || ids[0] in d {
        SameToLink(f, d, g, e, ids[1..]);
      } else {
        SameToLink(f, d + {ids[0]}, g, e + {ids[0]}, ids[1..]);
      }
    }
  }

  /** The given paths that are not linked. */
  function Unlinked(c: Config, ids: seq<string>): seq<string> {
    ToLink(x => IsLinked(c, x), {}, ids)
  }

  lemma UnlinkedFirst(c: Config, ids: seq<string>, d: Config)
    requires ids != [] && !IsLinked(c, ids[0])
    requires forall id :: IsLinked(d, id) <==> IsLinked(c, id) || id == ids[0]
    ensures Unlinked(c, ids) == [ids[0]] + Unlinked(d, ids[1..])
  {
    SameToLink(x => IsLinked(c, x), {} + {ids[0]}, x => IsLinked(d, x), {}, ids[1..]);
  }

  /** Link calls the paths that are not linked, in the order given: all of them when it succeeds. */
  lemma {:induction false} LinkCalls(c: Config, remote: Remote, n: nat, ids: seq<string>)
    requires KeepsIdentity(remote) && OpensChannels(remote)
    ensures
      var l := LinkSpec(c, remote, n, ids);
      l.called <= Unlinked(c, ids) && (l.ok ==> l.called == Unlinked(c, ids))
    decreases |ids|
  {
    if ids != [] && Linkable(c, ids[0]) {
      var path := FindPath(c.paths, ids[0]).value;
      if IsLinked(c, ids[0]) {
        LinkCalls(c, remote, n, ids[1..]);
      } else if remote(n, path).Some? {
        var reply := remote(n, path).value;
        LinkAfterCall(c, remote, n, ids, path, reply);
        CommitMeans(c, reply);
        LinkCalls(Commit(c, reply), remote, n + 1, ids[1..]);
        UnlinkedFirst(c, ids, Commit(c, reply));
      } else {
        assert Unlinked(c, ids)[..1] == [ids[0]];
      }
    }
  }

  // ----- What setup and Connect write -----

  /** Setting a chain up is refused exactly when its ID is there with another RPC address. A new chain is appended;
      one that is there keeps its position and takes over every setting that is given. */
  lemma {:induction false} SetupMeans(chains: seq<Chain>, chain: Chain)
    ensures
      var was, setup := FindChain(chains, chain.id), SetupSpec(chains, chain);
      && (setup.Err? <==> was.Some? && was.value.rpcAddress != chain.rpcAddress)
      && (was.None? ==> setup == Ok(chains + [chain]))
      && (setup.Ok? && was.Some? ==>
           FindChain(setup.value, chain.id) ==
           Some(Chain(chain.id,
                      if chain.account != "" then chain.account else was.value.account,
                      if chain.addressPrefix != "" then chain.addressPrefix else was.value.addressPrefix,
                      chain.rpcAddress,
                      if chain.gasPrice != "" then chain.gasPrice else was.value.gasPrice,
                      if chain.gasLimit != 0 then chain.gasLimit else was.value.gasLimit,
                      if chain.clientID != "" then chain.clientID else was.value.clientID)))
  {
    if chains == [] {
      assert chains + [chain] == [chain];
    } else if chains[0].id != chain.id {
      SetupMeans(chains[1..], chain);
      var setup := SetupSpec(chains[1..], chain);
      if setup.Ok? {
        assert ([chains[0]] + setup.value)[1..] == setup.value;
        assert [chains[0]] + (chains[1..] + [chain]) == chains + [chain];
      }
    }
  }

  /** A path with a chain that is not in the configuration ends Link before any call. */
  lemma MissingChainStops(c: Config, remote: Remote, n: nat, id: string, rest: seq<string>)
    requires FindPath(c.paths, id).Some? && !IsLinked(c, id)
    requires
      var path := FindPath(c.paths, id).value;
      FindChain(c.chains, path.src.chainID).None? || FindChain(c.chains, path.dst.chainID).None?
    ensures LinkSpec(c, remote, n, [id] + rest) == Linked(c, [], false)
  {
  }

  /** A path that was just connected has the ports, versions and ordering it was asked for and no link yet; all
      other paths are as they were. Linking it calls the remote with just that path and stores the reply. */
  lemma ConnectThenLink(c: Config, id: string, src: string, dst: string, o: ChannelOptions, remote: Remote)
    requires KeepsIdentity(remote) && OpensChannels(remote) && FindPath(c.paths, id).None?
    ensures
      var d, path := WithPath(c, NewPath(id, src, dst, o)),
                     Path(id, o.ordering, PathEnd(src, "", "", o.sourcePort, o.sourceVersion, 0, 0),
                          PathEnd(dst, "", "", o.targetPort, o.targetVersion, 0, 0));
      && d.chains == c.chains && FindPath(d.paths, id) == Some(path)
      && (forall other :: other != id ==> FindPath(d.paths, other) == FindPath(c.paths, other))
      && (FindChain(c.chains, src).Some? && FindChain(c.chains, dst).Some? && remote(0, path).Some? ==>
           var l := LinkSpec(d, remote, 0, [id]);
           l.ok && l.called == [id] && FindPath(l.config.paths, id) == remote(0, path))
  {
    var path := NewPath(id, src, dst, o);
    var d := WithPath(c, path);
    forall x ensures FindPath(d.paths, x) == if x == id then Some(path) else FindPath(c.paths, x) {
      FindInAppended(c.paths, path, x);
    }
    if HasChains(c, path) && remote(0, path).Some? {
      LinkAfterCall(d, remote, 0, [id], path, remote(0, path).value);
      CommitMeans(d, remote(0, path).value);
      assert [id][1..] == [];
    }
  }

  // ----- The configuration stays well formed -----

  /** Chains keep their RPC address and paths keep the chains they connect. */
  ghost predicate Extends(c: Config, d: Config) {
    && (forall id {:trigger FindChain(d.chains, id)} {:trigger FindChain(c.chains, id)} ::
         FindChain(c.chains, id).Some? ==>
         FindChain(d.chains, id).Some?
         && FindChain(d.chains, id).value.rpcAddress == FindChain(c.chains, id).value.rpcAddress)
    && (forall id {:trigger FindPath(d.paths, id)} {:trigger FindPath(c.paths, id)} :: FindPath(c.paths, id).Some? ==>
         FindPath(d.paths, id).Some? && SameIdentity(FindPath(c.paths, id).value, FindPath(d.paths, id).value))
  }

  lemma {:induction false} FindInSetup(chains: seq<Chain>, chain: Chain, id: string)
    requires SetupSpec(chains, chain).Ok?
    ensures
      var was, now := FindChain(chains, id), FindChain(SetupSpec(chains, chain).value, id);
      && (id == chain.id ==> now.Some? && now.value.rpcAddress == chain.rpcAddress)
      && (id != chain.id ==> now == was)
      && (was.Some? ==> now.Some? && now.value.rpcAddress == was.value.rpcAddress)
  {
    if chains != [] && chains[0].id != chain.id {
      FindInSetup(chains[1..], chain, id);
    } else if chains != [] {
      assert SetupSpec(chains, chain).value[1..] == chains[1..];
    }
  }

  lemma {:induction false} SetupIDs(chains: seq<Chain>, chain: Chain)
    requires SetupSpec(chains, chain).Ok?
    ensures
      var now := SetupSpec(chains, chain).value;
      && |chains| <= |now| <= |chains| + 1
      && (forall i :: 0 <= i < |chains| ==> now[i].id == chains[i].id)
      && (|now| > |chains| ==>
           now[|chains|].id == chain.id && forall i :: 0 <= i < |chains| ==> chains[i].id != chain.id)
  {
    if chains != [] && chains[0].id != chain.id {
      SetupIDs(chains[1..], chain);
      var now := SetupSpec(chains, chain).value;
      assert now[1..] == SetupSpec(chains[1..], chain).value;
      assert forall i :: 0 < i < |now| ==> now[i] == now[1..][i - 1];
      assert forall i :: 0 < i < |chains| ==> chains[i] == chains[1..][i - 1];
    }
  }

  lemma SetupExtends(c: Config, chain: Chain, id: string)
    requires SetupSpec(c.chains, chain).Ok? && FindChain(c.chains, id).Some?
    ensures
      var now := FindChain(SetupSpec(c.chains, chain).value, id);
      now.Some? && now.value.rpcAddress == FindChain(c.chains, id).value.rpcAddress
  {
    FindInSetup(c.chains, chain, id);
  }

  lemma SetupDistinct(chains: seq<Chain>, chain: Chain)
    requires DistinctChains(chains) && SetupSpec(chains, chain).Ok?
    ensures DistinctChains(SetupSpec(chains, chain).value)
  {
    SetupIDs(chains, chain);
  }

  /** More chains, with the addresses of the ones before, keep what paths and lookups need. */
  lemma ChainsExtend(c: Config, chains: seq<Chain>)
    requires WellFormed(c) && DistinctChains(chains)
    requires forall id :: FindChain(c.chains, id).Some? ==>
      FindChain(chains, id).Some? && FindChain(chains, id).value.rpcAddress == FindChain(c.chains, id).value.rpcAddress
    ensures
      var d := Config(SUPPORT_VERSION, chains, c.paths);
      WellFormed(d) && Extends(c, d)
  {
  }

  /** Setting a chain up keeps the configuration well formed and the chain's RPC address. */
  lemma SetupKeeps(c: Config, chain: Chain)
    requires WellFormed(c) && SetupSpec(c.chains, chain).Ok?
    ensures
      var d := Config(SUPPORT_VERSION, SetupSpec(c.chains, chain).value, c.paths);
      WellFormed(d) && Extends(c, d) && FindChain(d.chains, chain.id).Some?
  {
    var chains := SetupSpec(c.chains, chain).value;
    SetupDistinct(c.chains, chain);
    forall id | FindChain(c.chains, id).Some?
      ensures FindChain(chains, id).Some?
      ensures FindChain(chains, id).value.rpcAddress == FindChain(c.chains, id).value.rpcAddress
    {
      SetupExtends(c, chain, id);
    }
    ChainsExtend(c, chains);
    FindInSetup(c.chains, chain, chain.id);
  }

  lemma {:induction false} FindInAppended(paths: seq<Path>, p: Path, id: string)
    ensures FindPath(paths + [p], id) ==
      if FindPath(paths, id).Some? then FindPath(paths, id) else if p.id == id then Some(p) else None
  {
    if paths != [] {
      assert (paths + [p])[1..] == paths[1..] + [p];
      FindInAppended(paths[1..], p, id);
    }
  }

  lemma AppendKeeps(c: Config, p: Path)
    requires WellFormed(c) && FindPath(c.paths, p.id).None?
    requires FindChain(c.chains, p.src.chainID).Some? && FindChain(c.chains, p.dst.chainID).Some?
    ensures WellFormed(WithPath(c, p)) && Extends(c, WithPath(c, p))
  {
    FindPathMeans(c.paths, p.id);
    forall id ensures FindPath(c.paths, id).Some? ==> FindPath(c.paths + [p], id) == FindPath(c.paths, id) {
      FindInAppended(c.paths, p, id);
    }
  }

  lemma ConnectKeeps(c: Config, src: string, dst: string, o: ChannelOptions, k: nat)
    requires WellFormed(c) && FirstFree(c.paths, src + "-" + dst, k)
    requires FindChain(c.chains, src).Some? && FindChain(c.chains, dst).Some?
    ensures
      var d := WithPath(c, NewPath(Guess(src + "-" + dst, k), src, dst, o));
      WellFormed(d) && Extends(c, d)
  {
    AppendKeeps(c, NewPath(Guess(src + "-" + dst, k), src, dst, o));
  }

  lemma CommitKeeps(c: Config, reply: Path)
    requires WellFormed(c)
    requires Answers(c, reply)
    ensures WellFormed(Commit(c, reply)) && Extends(c, Commit(c, reply))
  {
    UpdatedAt(c.paths, reply);
    forall id ensures FindPath(Updated(c.paths, reply), id) ==
                      if id == reply.id then Some(reply) else FindPath(c.paths, id) {
      FindUpdated(c.paths, reply, id);
    }
    var d := Commit(c, reply);
    forall i | 0 <= i < |d.paths|
      ensures d.paths[i].id == c.paths[i].id && SameIdentity(c.paths[i], d.paths[i])
    {
    }
  }

  lemma ExtendsTransitive(a: Config, b: Config, c: Config)
    requires Extends(a, b) && Extends(b, c)
    ensures Extends(a, c)
  {
    forall id | FindChain(a.chains, id).Some?
      ensures FindChain(c.chains, id).Some?
      ensures FindChain(c.chains, id).value.rpcAddress == FindChain(a.chains, id).value.rpcAddress
    {
      assert FindChain(b.chains, id).Some?;
    }
    forall id | FindPath(a.paths, id).Some?
      ensures FindPath(c.paths, id).Some? && SameIdentity(FindPath(a.paths, id).value, FindPath(c.paths, id).value)
    {
      assert FindPath(b.paths, id).Some?;
    }
  }

  lemma {:induction false} LinkKeeps(c: Config, remote: Remote, n: nat, ids: seq<string>)
    requires WellFormed(c) && KeepsIdentity(remote)
    ensures WellFormed(LinkSpec(c, remote, n, ids).config) && Extends(c, LinkSpec(c, remote, n, ids).config)
    decreases |ids|
  {
    if ids != [] && FindPath(c.paths, ids[0]).Some? {
      var path := FindPath(c.paths, ids[0]).value;
      FindPathMeans(c.paths, ids[0]);
      if path.src.channelID != "" {
        LinkKeeps(c, remote, n, ids[1..]);
      } else if HasChains(c, path) && remote(n, path).Some? {
        var reply := remote(n, path).value;
        assert SameIdentity(path, reply) && Answers(c, reply);
        CommitKeeps(c, reply);
        LinkKeeps(Commit(c, reply), remote, n + 1, ids[1..]);
        ExtendsTransitive(c, Commit(c, reply), LinkSpec(Commit(c, reply), remote, n + 1, ids[1..]).config);
      }
    }
  }

  function CommitAll(c: Config, replies: seq<Path>): Config {
    if replies == [] then c else Commit(CommitAll(c, replies[..|replies| - 1]), replies[|replies| - 1])
  }

  predicate Answers(c: Config, reply: Path) {
    FindPath(c.paths, reply.id).Some? && SameIdentity(FindPath(c.paths, reply.id).value, reply)
  }

  predicate RepliesTo(c: Config, replies: seq<Path>) {
    forall i :: 0 <= i < |replies| ==> Answers(c, replies[i])
  }

  lemma {:induction false} CommitAllKeeps(c: Config, replies: seq<Path>)
    requires WellFormed(c) && RepliesTo(c, replies)
    ensures WellFormed(CommitAll(c, replies)) && Extends(c, CommitAll(c, replies))
  {
    if replies != [] {
      var most, last := replies[..|replies| - 1], replies[|replies| - 1];
      CommitAllKeeps(c, most);
      assert Answers(c, last) && FindPath(CommitAll(c, most).paths, last.id).Some?;
      CommitKeeps(CommitAll(c, most), last);
      ExtendsTransitive(c, CommitAll(c, most), CommitAll(c, replies));
    }
  }

  /** The operations of the relayer between two deletions of its configuration. */
  datatype Operation =
    | Setup(chain: Chain)
    | Connect(src: string, dst: string, options: ChannelOptions)
    | Link(remote: Remote, ids: seq<string>)
    | Ticks(replies: seq<Path>)

  ghost predicate Step(c: Config, op: Operation, d: Config) {
    match op
    case Setup(chain) =>
      (match SetupSpec(c.chains, chain)
       case Ok(chains) => d == Config(SUPPORT_VERSION, chains, c.paths)
       case Err(_) => d == c)
    case Connect(src, dst, o) =>
      && FindChain(c.chains, src).Some? && FindChain(c.chains, dst).Some?
      && exists k :: FirstFree(c.paths, src + "-" + dst, k)
                     && d == WithPath(c, NewPath(Guess(src + "-" + dst, k), src, dst, o))
    case Link(remote, ids) => KeepsIdentity(remote) && d == LinkSpec(c, remote, 0, ids).config
    case Ticks(replies) => RepliesTo(c, replies) && d == CommitAll(c, replies)
  }

  ghost predicate IsRun(configs: seq<Config>, ops: seq<Operation>) {
    |configs| == |ops| + 1 && forall i :: 0 <= i < |ops| ==> Step(configs[i], ops[i], configs[i + 1])
  }

  lemma StepKeeps(c: Config, op: Operation, d: Config)
    requires WellFormed(c) && Step(c, op, d)
    ensures WellFormed(d) && Extends(c, d)
  {
    match op
    case Setup(chain) =>
      if SetupSpec(c.chains, chain).Ok? {
        SetupKeeps(c, chain);
      }
    case Connect(src, dst, o) =>
      var k :|
        FirstFree(c.paths, src + "-" + dst, k) && d == WithPath(c, NewPath(Guess(src + "-" + dst, k), src, dst, o));
      ConnectKeeps(c, src, dst, o, k);
    case Link(remote, ids) => LinkKeeps(c, remote, 0, ids);
    case Ticks(replies) => CommitAllKeeps(c, replies);
  }

  /** Over every run, path IDs and chain IDs stay distinct, both ends of every path resolve, and from any
      point on a chain keeps its RPC address and a path the chains it connects. */
  lemma {:induction false} RunKeeps(configs: seq<Config>, ops: seq<Operation>)
    requires IsRun(configs, ops) && WellFormed(configs[0])
    ensures forall j :: 0 <= j < |configs| ==> WellFormed(configs[j])
    ensures forall i, j :: 0 <= i <= j < |configs| ==> Extends(configs[i], configs[j])
    decreases |ops|
  {
    if ops != [] {
      var n := |ops| - 1;
      RunKeeps(configs[..n + 1], ops[..n]);
      assert configs[..n + 1][n] == configs[n] && forall j :: 0 <= j <= n ==> configs[..n + 1][j] == configs[j];
      StepKeeps(configs[n], ops[n], configs[n + 1]);
      forall i | 0 <= i <= n ensures Extends(configs[i], configs[n + 1]) {
        assert Extends(configs[..n + 1][i], configs[..n + 1][n]);
        ExtendsTransitive(configs[i], configs[n], configs[n + 1]);
      }
    }
  }
}
