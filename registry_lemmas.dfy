/**
 * Properties of the registry model: what registering and looking up promise
 * together, the partial commit of registerDidMethodNetwork stated table by
 * table, and that no sequence of calls ever removes an entry or rewrites a
 * chain ID, a method byte or a network flag.
 */
module RegistryProperties {
  import opened RegistrySpec

  // ---------------------------------------------------------------------------
  // registerChainId, getChainId and chainIDfromDID together
  // ---------------------------------------------------------------------------

  /** A fresh non-zero chain ID is read back by getChainId with the network given. */
  lemma RegisterChainIdThenGetChainId(t: Tables, blockchain: string, network: string, chainId: int)
    requires ChainKey(blockchain, network) !in t.chainIds
    requires network != "" && chainId != 0
    ensures var s := RegisterChainId(t, blockchain, network, chainId);
      s.outcome == Pass && GetChainId(s.tables, blockchain, Some(network)) == Ok(chainId)
  {
  }

  /** A fresh chain ID, 0 included, is read back by chainIDfromDID. */
  lemma RegisterChainIdThenChainIdFromDid(t: Tables, blockchain: string, network: string, chainId: int)
    requires ChainKey(blockchain, network) !in t.chainIds
    ensures var s := RegisterChainId(t, blockchain, network, chainId);
      s.outcome == Pass && ChainIdFromDid(s.tables, blockchain, network) == Ok(chainId)
  {
  }

  /**
   * Registering the same blockchain and network again fails whatever the new
   * chain ID, and the first value stays.
   */
  lemma RegisterChainIdTwice(t: Tables, blockchain: string, network: string, first: int, second: int)
    requires ChainKey(blockchain, network) !in t.chainIds
    ensures var s1 := RegisterChainId(t, blockchain, network, first);
      var s2 := RegisterChainId(s1.tables, blockchain, network, second);
      && s1.outcome == Pass
      && s2.outcome == Fail(ChainIdAlreadyRegistered(ChainKey(blockchain, network)))
      && s2.tables == s1.tables
      && ChainIdFromDid(s2.tables, blockchain, network) == Ok(first)
  {
  }

  /**
   * With an empty network the two operations disagree on the key:
   * registerChainId writes `blockchain + ":"`, getChainId reads the bare
   * blockchain. A fresh chain ID registered that way is not read back.
   */
  lemma EmptyNetworkChainIdIsNotReadBack(t: Tables, blockchain: string, chainId: int)
    requires ChainKey(blockchain, "") !in t.chainIds && blockchain !in t.chainIds
    ensures var s := RegisterChainId(t, blockchain, "", chainId);
      && s.outcome == Pass
      && GetChainId(s.tables, blockchain, Some("")) == Err(ChainIdNotFound(blockchain))
      && ChainIdFromDid(s.tables, blockchain, "") == Ok(chainId)
  {
    assert |ChainKey(blockchain, "")| == |blockchain| + 1;
  }

  /**
   * A registered chain ID of 0: chainIDfromDID finds it, getChainId reports it
   * as not found.
   */
  lemma ZeroChainIdIsFoundOnlyFromDid(t: Tables, blockchain: string, network: string)
    requires ChainKey(blockchain, network) !in t.chainIds
    requires network != ""
    ensures var s := RegisterChainId(t, blockchain, network, 0);
      && ChainIdFromDid(s.tables, blockchain, network) == Ok(0)
      && GetChainId(s.tables, blockchain, Some(network)) == Err(ChainIdNotFound(ChainKey(blockchain, network)))
  {
  }

  /**
   * With a non-empty network the two lookups read the same entry: getChainId
   * succeeds exactly when chainIDfromDID does with a non-zero value, and then
   * both return it.
   */
  lemma GetChainIdAgreesWithChainIdFromDid(t: Tables, blockchain: string, network: string)
    requires network != ""
    ensures GetChainId(t, blockchain, Some(network)).Ok? <==>
      ChainIdFromDid(t, blockchain, network).Ok? && ChainIdFromDid(t, blockchain, network).value != 0
    ensures GetChainId(t, blockchain, Some(network)).Ok? ==>
      GetChainId(t, blockchain, Some(network)) == ChainIdFromDid(t, blockchain, network)
  {
  }

  /** Omitting the network and passing "" are the same call: both read the bare blockchain key. */
  lemma GetChainIdEmptyNetworkIsOmitted(t: Tables, blockchain: string)
    ensures GetChainId(t, blockchain, Some("")) == GetChainId(t, blockchain, None)
    ensures GetChainId(t, blockchain, None).Ok? <==>
      blockchain in t.chainIds && t.chainIds[blockchain] != 0
  {
  }

  // ---------------------------------------------------------------------------
  // registerDidMethodNetwork: the order of its checks and its partial commit
  // ---------------------------------------------------------------------------

  /**
   * Which error registerDidMethodNetwork throws: the byte check first, then
   * the chain ID check, then the network-flag check, each judged on the
   * tables as they were before the call.
   */
  lemma RegisterDidMethodNetworkOutcome(t: Tables, req: NetworkRegistration)
    ensures var s := RegisterDidMethodNetwork(t, req);
      s.outcome ==
        if ByteClash(t, req) then Fail(DidMethodAlreadyRegistered(req.methodName))
        else if ChainIdClash(t, req) then Fail(ChainIdAlreadyRegistered(ChainKey(req.blockchain, req.network)))
        else if FlagClash(t, req) then Fail(DidMethodNetworkAlreadyRegistered(ChainKey(req.blockchain, req.network)))
        else Pass
  {
    if !ByteClash(t, req) && !ChainIdClash(t, req) {
      assert FlagClash(t, req) <==>
        ChainKey(req.blockchain, req.network) in ChainIdStep(t, req).tables.didMethodNetwork[req.methodName];
    }
  }

  /** registerDidMethodNetwork always records both names; it records the method only when given a byte. */
  lemma RegisterDidMethodNetworkNames(t: Tables, req: NetworkRegistration)
    ensures var s := RegisterDidMethodNetwork(t, req);
      && s.tables.blockchain == t.blockchain[req.blockchain := req.blockchain]
      && s.tables.networkId == t.networkId[req.network := req.network]
      && s.tables.didMethod ==
        (if req.methodByte.Some? then t.didMethod[req.methodName := req.methodName] else t.didMethod)
  {
  }

  /** The method byte is set exactly when one is given and the method had none, whatever the later steps do. */
  lemma RegisterDidMethodNetworkByte(t: Tables, req: NetworkRegistration)
    ensures RegisterDidMethodNetwork(t, req).tables.didMethodByte ==
      if req.methodByte.Some? && !ByteClash(t, req)
      then t.didMethodByte[req.methodName := req.methodByte.value] else t.didMethodByte
  {
  }

  /** The chain ID is set exactly when one is given and neither it nor the byte before it clashed. */
  lemma RegisterDidMethodNetworkChainId(t: Tables, req: NetworkRegistration)
    ensures RegisterDidMethodNetwork(t, req).tables.chainIds ==
      if req.chainId.Some? && !ByteClash(t, req) && !ChainIdClash(t, req)
      then t.chainIds[ChainKey(req.blockchain, req.network) := req.chainId.value] else t.chainIds
  {
  }

  /**
   * Past the byte check the method has an entry in DidMethodNetwork, and it
   * gains the flag only when no check failed.
   */
  lemma RegisterDidMethodNetworkFlags(t: Tables, req: NetworkRegistration)
    ensures RegisterDidMethodNetwork(t, req).tables.didMethodNetwork ==
      if ByteClash(t, req) then t.didMethodNetwork
      else t.didMethodNetwork[req.methodName :=
        if ChainIdClash(t, req) || FlagClash(t, req) then NetworksOf(t, req.methodName)
        else NetworksOf(t, req.methodName)[ChainKey(req.blockchain, req.network) := req.networkFlag]]
  {
    if !ByteClash(t, req) && !ChainIdClash(t, req) {
      assert FlagClash(t, req) <==>
        ChainKey(req.blockchain, req.network) in NetworksOf(t, req.methodName);
    }
  }

  /**
   * The tables after registerDidMethodNetwork, each in terms of the tables
   * before it. The names are always recorded; every later effect is present
   * exactly when every check before it passed, and stays when a later check
   * fails.
   */
  lemma RegisterDidMethodNetworkTables(t: Tables, req: NetworkRegistration)
    ensures var s := RegisterDidMethodNetwork(t, req);
      var key := ChainKey(req.blockchain, req.network);
      && s.tables.blockchain == t.blockchain[req.blockchain := req.blockchain]
      && s.tables.networkId == t.networkId[req.network := req.network]
      && s.tables.didMethod ==
        (if req.methodByte.Some? then t.didMethod[req.methodName := req.methodName] else t.didMethod)
      && s.tables.didMethodByte ==
        (if req.methodByte.Some? && !ByteClash(t, req)
         then t.didMethodByte[req.methodName := req.methodByte.value] else t.didMethodByte)
      && s.tables.chainIds ==
        (if req.chainId.Some? && !ByteClash(t, req) && !ChainIdClash(t, req)
         then t.chainIds[key := req.chainId.value] else t.chainIds)
      && s.tables.didMethodNetwork ==
        (if ByteClash(t, req) then t.didMethodNetwork
         else t.didMethodNetwork[req.methodName :=
           if ChainIdClash(t, req) || FlagClash(t, req) then NetworksOf(t, req.methodName)
           else NetworksOf(t, req.methodName)[key := req.networkFlag]])
  {
    RegisterDidMethodNetworkNames(t, req);
    RegisterDidMethodNetworkByte(t, req);
    RegisterDidMethodNetworkChainId(t, req);
    RegisterDidMethodNetworkFlags(t, req);
  }

  /**
   * A chain ID that clashes leaves the method byte of the same call in place:
   * the byte is registered and the call still fails.
   */
  lemma ChainIdClashKeepsMethodByte(t: Tables, req: NetworkRegistration)
    requires req.methodByte.Some? && req.methodName !in t.didMethodByte
    requires ChainIdClash(t, req)
    ensures var s := RegisterDidMethodNetwork(t, req);
      && s.outcome == Fail(ChainIdAlreadyRegistered(ChainKey(req.blockchain, req.network)))
      && s.tables.didMethodByte == t.didMethodByte[req.methodName := req.methodByte.value]
      && req.methodName in s.tables.didMethodNetwork
      && s.tables.chainIds == t.chainIds
  {
    RegisterDidMethodNetworkOutcome(t, req);
    RegisterDidMethodNetworkTables(t, req);
  }

  /**
   * A flag that clashes leaves the chain ID and the method byte of the same
   * call in place.
   */
  lemma FlagClashKeepsChainIdAndByte(t: Tables, req: NetworkRegistration)
    requires !ByteClash(t, req) && !ChainIdClash(t, req) && FlagClash(t, req)
    ensures var s := RegisterDidMethodNetwork(t, req);
      var key := ChainKey(req.blockchain, req.network);
      && s.outcome == Fail(DidMethodNetworkAlreadyRegistered(key))
      && (req.chainId.Some? ==> key in s.tables.chainIds && s.tables.chainIds[key] == req.chainId.value)
      && (req.methodByte.Some? ==>
            req.methodName in s.tables.didMethodByte
            && s.tables.didMethodByte[req.methodName] == req.methodByte.value)
      && s.tables.didMethodNetwork == t.didMethodNetwork
  {
    RegisterDidMethodNetworkOutcome(t, req);
    RegisterDidMethodNetworkTables(t, req);
  }

  /**
   * On success the flag is set for this blockchain and network, and every
   * other flag of the method, and every other method's flags, are as before.
   */
  lemma RegisterDidMethodNetworkSetsFlag(t: Tables, req: NetworkRegistration)
    requires RegisterDidMethodNetwork(t, req).outcome == Pass
    ensures var s := RegisterDidMethodNetwork(t, req);
      var key := ChainKey(req.blockchain, req.network);
      && req.methodName in s.tables.didMethodNetwork
      && key in s.tables.didMethodNetwork[req.methodName]
      && s.tables.didMethodNetwork[req.methodName][key] == req.networkFlag
      && (forall k :: k != key ==>
            (k in s.tables.didMethodNetwork[req.methodName] <==> k in NetworksOf(t, req.methodName)))
      && (forall k :: k != key && k in NetworksOf(t, req.methodName) ==>
            s.tables.didMethodNetwork[req.methodName][k] == NetworksOf(t, req.methodName)[k])
      && (forall m :: m != req.methodName ==>
            (m in s.tables.didMethodNetwork <==> m in t.didMethodNetwork))
      && (forall m :: m != req.methodName && m in t.didMethodNetwork ==>
            s.tables.didMethodNetwork[m] == t.didMethodNetwork[m])
  {
    RegisterDidMethodNetworkOutcome(t, req);
    RegisterDidMethodNetworkFlags(t, req);
    FlagUpdate(t.didMethodNetwork, RegisterDidMethodNetwork(t, req).tables.didMethodNetwork,
      req.methodName, NetworksOf(t, req.methodName), ChainKey(req.blockchain, req.network), req.networkFlag);
  }

  /** What setting one flag of one method does to the method-to-flags table. */
  lemma FlagUpdate(before: map<string, map<string, int>>, after: map<string, map<string, int>>,
                   methodName: string, networks: map<string, int>, key: string, networkFlag: int)
    requires after == before[methodName := networks[key := networkFlag]]
    ensures methodName in after && key in after[methodName] && after[methodName][key] == networkFlag
    ensures forall k :: k != key ==> (k in after[methodName] <==> k in networks)
    ensures forall k :: k != key && k in networks ==> after[methodName][k] == networks[k]
    ensures forall m :: m != methodName ==> (m in after <==> m in before)
    ensures forall m :: m != methodName && m in before ==> after[m] == before[m]
  {
  }

  /**
   * Repeating a successful registration fails, at the first check that the
   * first call made true: the byte, else the chain ID, else the flag.
   */
  lemma RegisterDidMethodNetworkTwice(t: Tables, req: NetworkRegistration)
    requires RegisterDidMethodNetwork(t, req).outcome == Pass
    ensures var s2 := RegisterDidMethodNetwork(RegisterDidMethodNetwork(t, req).tables, req);
      var key := ChainKey(req.blockchain, req.network);
      s2.outcome ==
        if req.methodByte.Some? then Fail(DidMethodAlreadyRegistered(req.methodName))
        else if req.chainId.Some? then Fail(ChainIdAlreadyRegistered(key))
        else Fail(DidMethodNetworkAlreadyRegistered(key))
  {
    var s1 := RegisterDidMethodNetwork(t, req);
    RegisterDidMethodNetworkOutcome(t, req);
    RegisterDidMethodNetworkTables(t, req);
    RegisterDidMethodNetworkSetsFlag(t, req);
    RegisterDidMethodNetworkOutcome(s1.tables, req);
  }

  /**
   * A second registration of a method byte fails even for another blockchain
   * and network.
   */
  lemma MethodByteTwice(t: Tables, first: NetworkRegistration, second: NetworkRegistration)
    requires first.methodByte.Some? && RegisterDidMethodNetwork(t, first).outcome == Pass
    requires second.methodName == first.methodName && second.methodByte.Some?
    ensures RegisterDidMethodNetwork(RegisterDidMethodNetwork(t, first).tables, second).outcome
      == Fail(DidMethodAlreadyRegistered(first.methodName))
  {
    RegisterDidMethodNetworkOutcome(t, first);
    RegisterDidMethodNetworkTables(t, first);
    RegisterDidMethodNetworkOutcome(RegisterDidMethodNetwork(t, first).tables, second);
  }

  /**
   * A full registration with a chain ID on a blockchain and network nobody
   * registered makes chainIDfromDID return that chain ID for a DID on them.
   */
  lemma RegisterDidMethodNetworkThenChainIdFromDid(t: Tables, req: NetworkRegistration)
    requires req.chainId.Some?
    requires RegisterDidMethodNetwork(t, req).outcome == Pass
    ensures ChainIdFromDid(RegisterDidMethodNetwork(t, req).tables, req.blockchain, req.network)
      == Ok(req.chainId.value)
  {
    RegisterDidMethodNetworkOutcome(t, req);
    RegisterDidMethodNetworkTables(t, req);
  }

  /**
   * On empty tables, registering method "m1" with byte 1 on "eth" / "main"
   * with flag 0b0001_0000 and chain ID 1 succeeds, and a DID that parses to
   * "eth" / "main" then yields chain ID 1; getChainId("eth", "main") agrees,
   * and the bare key "eth" is still unknown.
   */
  lemma EthMainExample()
    ensures var t := Tables(map[], map[], map[], map[], map[], map[]);
      var req := NetworkRegistration("m1", Some(1), "eth", "main", 16, Some(1));
      var s := RegisterDidMethodNetwork(t, req);
      && s.outcome == Pass
      && ChainIdFromDid(s.tables, "eth", "main") == Ok(1)
      && GetChainId(s.tables, "eth", Some("main")) == Ok(1)
      && GetChainId(s.tables, "eth", None) == Err(ChainIdNotFound("eth"))
      && s.tables.didMethodByte == map["m1" := 1]
      && s.tables.didMethodNetwork == map["m1" := map["eth:main" := 16]]
  {
    var t := Tables(map[], map[], map[], map[], map[], map[]);
    var req := NetworkRegistration("m1", Some(1), "eth", "main", 16, Some(1));
    assert ChainKey("eth", "main") == "eth:main";
    RegisterDidMethodNetworkOutcome(t, req);
    RegisterDidMethodNetworkTables(t, req);
  }

  // ---------------------------------------------------------------------------
  // The registry only grows
  // ---------------------------------------------------------------------------

  /**
   * `u` keeps every entry of `t`: every name, and every chain ID, method byte
   * and network flag with its value. (The name tables map a name to itself
   * when written by these operations; only their key sets are compared.)
   */
  ghost predicate Extends(t: Tables, u: Tables)
  {
    && t.didMethod.Keys <= u.didMethod.Keys
    && t.blockchain.Keys <= u.blockchain.Keys
    && t.networkId.Keys <= u.networkId.Keys
    && (forall m :: m in t.didMethodByte ==> m in u.didMethodByte && u.didMethodByte[m] == t.didMethodByte[m])
    && (forall k :: k in t.chainIds ==> k in u.chainIds && u.chainIds[k] == t.chainIds[k])
    && (forall m :: m in t.didMethodNetwork ==>
          && m in u.didMethodNetwork
          && (forall k :: k in t.didMethodNetwork[m] ==>
                k in u.didMethodNetwork[m] && u.didMethodNetwork[m][k] == t.didMethodNetwork[m][k]))
  }

  lemma ExtendsTransitive(t: Tables, u: Tables, v: Tables)
    requires Extends(t, u) && Extends(u, v)
    ensures Extends(t, v)
  {
  }

  /** A call to one of the two exported registration operations, as a caller would issue it. */
  datatype Call =
    | RegisterChainIdCall(blockchain: string, network: string, chainId: int)
    | RegisterDidMethodNetworkCall(req: NetworkRegistration)

  function Apply(t: Tables, c: Call): Step
  {
    match c
    case RegisterChainIdCall(b, n, id) => RegisterChainId(t, b, n, id)
    case RegisterDidMethodNetworkCall(req) => RegisterDidMethodNetwork(t, req)
  }

  /**
   * The tables after a sequence of calls, each made on the tables the one
   * before left; a call that throws keeps its partial effects and the caller
   * goes on.
   */
  function Run(t: Tables, calls: seq<Call>): Tables
    decreases |calls|
  {
    if calls == [] then t else Run(Apply(t, calls[0]).tables, calls[1..])
  }

  lemma RegisterChainIdExtends(t: Tables, blockchain: string, network: string, chainId: int)
    ensures Extends(t, RegisterChainId(t, blockchain, network, chainId).tables)
  {
  }

  lemma RegisterDidMethodNetworkExtends(t: Tables, req: NetworkRegistration)
    ensures Extends(t, RegisterDidMethodNetwork(t, req).tables)
  {
    RegisterDidMethodNetworkNames(t, req);
    RegisterDidMethodNetworkByte(t, req);
    RegisterDidMethodNetworkChainId(t, req);
    RegisterDidMethodNetworkKeepsFlags(t, req);
  }

  lemma RegisterDidMethodNetworkKeepsFlags(t: Tables, req: NetworkRegistration)
    ensures var flags := RegisterDidMethodNetwork(t, req).tables.didMethodNetwork;
      forall m :: m in t.didMethodNetwork ==>
        && m in flags
        && (forall k :: k in t.didMethodNetwork[m] ==>
              k in flags[m] && flags[m][k] == t.didMethodNetwork[m][k])
  {
    RegisterDidMethodNetworkFlags(t, req);
    var flags := RegisterDidMethodNetwork(t, req).tables.didMethodNetwork;
    forall m | m in t.didMethodNetwork
      ensures m in flags
      ensures forall k :: k in t.didMethodNetwork[m] ==>
        k in flags[m] && flags[m][k] == t.didMethodNetwork[m][k]
    {
      if m == req.methodName && !ByteClash(t, req) {
        assert NetworksOf(t, m) == t.didMethodNetwork[m];
      }
    }
  }

  /**
   * No sequence of registration calls, failing or not, removes an entry or
   * rewrites a chain ID, a method byte or a network flag.
   */
  lemma {:induction false} RunExtends(t: Tables, calls: seq<Call>)
    ensures Extends(t, Run(t, calls))
    decreases |calls|
  {
    if calls != [] {
      var u := Apply(t, calls[0]).tables;
      match calls[0] {
        case RegisterChainIdCall(b, n, id) => RegisterChainIdExtends(t, b, n, id);
        case RegisterDidMethodNetworkCall(req) => RegisterDidMethodNetworkExtends(t, req);
      }
      RunExtends(u, calls[1..]);
      ExtendsTransitive(t, u, Run(u, calls[1..]));
    }
  }

  /** Once a lookup succeeds it returns the same chain ID after any further registration calls. */
  lemma LookupsSurviveRegistration(t: Tables, calls: seq<Call>, blockchain: string, network: string)
    ensures ChainIdFromDid(t, blockchain, network).Ok? ==>
      ChainIdFromDid(Run(t, calls), blockchain, network) == ChainIdFromDid(t, blockchain, network)
    ensures GetChainId(t, blockchain, Some(network)).Ok? ==>
      GetChainId(Run(t, calls), blockchain, Some(network)) == GetChainId(t, blockchain, Some(network))
  {
    RunExtends(t, calls);
  }
}
