/**
 * Value-level model of the chain / DID-method registry of src/registration.ts.
 *
 * The six lookup tables are held together in `Tables`. Every operation is a
 * function from the tables before the call to a `Step`: the tables after the
 * call and whether it succeeded. A failing step keeps exactly the side effects
 * that the source performs before it throws; nothing is rolled back.
 *
 * Stored numbers are integers and "typeof x === 'number'" is "the key is
 * present". The falsiness test of getChainId additionally treats a stored 0
 * as missing.
 */
module RegistrySpec {

  datatype Option<T> = None | Some(value: T)

  /** The errors the registry throws; each carries the name or key its message names. */
  datatype Error =
    | DidMethodAlreadyRegistered(methodName: string)
    | ChainIdAlreadyRegistered(key: string)
    | DidMethodNetworkAlreadyRegistered(key: string)
    | ChainIdNotFound(key: string)

  datatype Result<T> = Ok(value: T) | Err(error: Error)

  /** Outcome of an operation that returns nothing or throws. */
  datatype Outcome = Pass | Fail(error: Error)

  /** The module-level tables: DidMethod, DidMethodByte, DidMethodNetwork, ChainIds, Blockchain, NetworkId. */
  datatype Tables = Tables(
    didMethod: map<string, string>,
    didMethodByte: map<string, int>,
    didMethodNetwork: map<string, map<string, int>>,
    chainIds: map<string, int>,
    blockchain: map<string, string>,
    networkId: map<string, string>)

  /** The tables after an operation, and whether it passed or threw. */
  datatype Step = Step(tables: Tables, outcome: Outcome)

  /** The argument object of registerDidMethodNetwork; optional fields are options. */
  datatype NetworkRegistration = NetworkRegistration(
    methodName: string,
    methodByte: Option<int>,
    blockchain: string,
    network: string,
    networkFlag: int,
    chainId: Option<int>)

  /** The composite key `${blockchain}:${network}`. */
  function ChainKey(blockchain: string, network: string): string
  {
    blockchain + ":" + network
  }

  /** The key getChainId looks up: the blockchain alone when the network is omitted or empty. */
  function LookupKey(blockchain: string, network: Option<string>): (key: string)
    ensures network.Some? && network.value != "" ==> key == blockchain + ":" + network.value
    ensures network.None? || network.value == "" ==> key == blockchain
  {
    if network.Some? && network.value != "" then ChainKey(blockchain, network.value) else blockchain
  }

  /** The sub-map DidMethodNetwork[m], or the empty object that step 3 creates when there is none. */
  function NetworksOf(t: Tables, methodName: string): map<string, int>
  {
    if methodName in t.didMethodNetwork then t.didMethodNetwork[methodName] else map[]
  }

  /** registerDidMethodWithByte: always records the method name, then refuses to overwrite a byte. */
  function RegisterDidMethodWithByte(t: Tables, methodName: string, byte: int): (s: Step)
    ensures s.tables.didMethod == t.didMethod[methodName := methodName]
    ensures s.outcome.Pass? <==> methodName !in t.didMethodByte
    ensures s.outcome.Fail? ==> s.outcome.error == DidMethodAlreadyRegistered(methodName)
    ensures methodName in s.tables.didMethodByte
    ensures forall m :: m != methodName ==>
      (m in s.tables.didMethodByte <==> m in t.didMethodByte)
    ensures forall m :: m in t.didMethodByte ==> s.tables.didMethodByte[m] == t.didMethodByte[m]
    ensures s.outcome.Pass? ==> s.tables.didMethodByte[methodName] == byte
    ensures s.tables.(didMethod := t.didMethod, didMethodByte := t.didMethodByte) == t
  {
    var t1 := t.(didMethod := t.didMethod[methodName := methodName]);
    if methodName in t1.didMethodByte then
      Step(t1, Fail(DidMethodAlreadyRegistered(methodName)))
    else
      Step(t1.(didMethodByte := t1.didMethodByte[methodName := byte]), Pass)
  }

  /** registerChainId: an insert into ChainIds that refuses to overwrite any present entry. */
  function RegisterChainId(t: Tables, blockchain: string, network: string, chainId: int): (s: Step)
    ensures s.outcome.Pass? <==> ChainKey(blockchain, network) !in t.chainIds
    ensures s.outcome.Fail? ==>
      s.outcome.error == ChainIdAlreadyRegistered(ChainKey(blockchain, network)) && s.tables == t
    ensures s.outcome.Pass? ==>
      && ChainKey(blockchain, network) in s.tables.chainIds
      && s.tables.chainIds[ChainKey(blockchain, network)] == chainId
    ensures forall k :: k != ChainKey(blockchain, network) ==>
      (k in s.tables.chainIds <==> k in t.chainIds)
    ensures forall k :: k in t.chainIds ==> s.tables.chainIds[k] == t.chainIds[k]
    ensures s.tables.(chainIds := t.chainIds) == t
  {
    var key := ChainKey(blockchain, network);
    if key in t.chainIds then
      Step(t, Fail(ChainIdAlreadyRegistered(key)))
    else
      Step(t.(chainIds := t.chainIds[key := chainId]), Pass)
  }

  /** getChainId: a read of ChainIds that treats an absent entry and a stored 0 alike. */
  function GetChainId(t: Tables, blockchain: string, network: Option<string>): (r: Result<int>)
    ensures r.Ok? <==>
      LookupKey(blockchain, network) in t.chainIds && t.chainIds[LookupKey(blockchain, network)] != 0
    ensures r.Ok? ==> r.value == t.chainIds[LookupKey(blockchain, network)] && r.value != 0
    ensures r.Err? ==> r.error == ChainIdNotFound(LookupKey(blockchain, network))
  {
    var key := LookupKey(blockchain, network);
    if key !in t.chainIds || t.chainIds[key] == 0 then Err(ChainIdNotFound(key))
    else Ok(t.chainIds[key])
  }

  /**
   * chainIDfromDID once the DID has been parsed into its blockchain and network
   * identifier: a read of ChainIds that accepts every stored number, 0 included.
   */
  function ChainIdFromDid(t: Tables, blockchain: string, networkId: string): (r: Result<int>)
    ensures r.Ok? <==> ChainKey(blockchain, networkId) in t.chainIds
    ensures r.Ok? ==> r.value == t.chainIds[ChainKey(blockchain, networkId)]
    ensures r.Err? ==> r.error == ChainIdNotFound(ChainKey(blockchain, networkId))
  {
    var key := ChainKey(blockchain, networkId);
    if key in t.chainIds then Ok(t.chainIds[key]) else Err(ChainIdNotFound(key))
  }

  /** Step 2 throws: a byte is given for a method that already has one. */
  predicate ByteClash(t: Tables, req: NetworkRegistration)
  {
    req.methodByte.Some? && req.methodName in t.didMethodByte
  }

  /** Step 3 throws: a chain ID is given for a blockchain and network that already have one. */
  predicate ChainIdClash(t: Tables, req: NetworkRegistration)
  {
    req.chainId.Some? && ChainKey(req.blockchain, req.network) in t.chainIds
  }

  /** Step 4 throws: the method already has a flag for this blockchain and network. */
  predicate FlagClash(t: Tables, req: NetworkRegistration)
  {
    req.methodName in t.didMethodNetwork
    && ChainKey(req.blockchain, req.network) in t.didMethodNetwork[req.methodName]
  }

  /** The first two assignments of registerDidMethodNetwork: record the blockchain and network names. */
  function RecordNames(t: Tables, blockchain: string, network: string): (u: Tables)
    ensures blockchain in u.blockchain && u.blockchain[blockchain] == blockchain
    ensures network in u.networkId && u.networkId[network] == network
    ensures u.blockchain.Keys == t.blockchain.Keys + {blockchain}
    ensures u.networkId.Keys == t.networkId.Keys + {network}
    ensures forall b :: b in t.blockchain && b != blockchain ==> u.blockchain[b] == t.blockchain[b]
    ensures forall n :: n in t.networkId && n != network ==> u.networkId[n] == t.networkId[n]
    ensures u.(blockchain := t.blockchain, networkId := t.networkId) == t
  {
    t.(blockchain := t.blockchain[blockchain := blockchain], networkId := t.networkId[network := network])
  }

  /** Step 2 of registerDidMethodNetwork: give a method seen for the first time an empty sub-map. */
  function EnsureMethodEntry(t: Tables, methodName: string): (u: Tables)
    ensures methodName in u.didMethodNetwork
    ensures u.didMethodNetwork[methodName] == NetworksOf(t, methodName)
    ensures u.didMethodNetwork.Keys == t.didMethodNetwork.Keys + {methodName}
    ensures forall m :: m in t.didMethodNetwork ==> u.didMethodNetwork[m] == t.didMethodNetwork[m]
    ensures u.(didMethodNetwork := t.didMethodNetwork) == t
  {
    if methodName in t.didMethodNetwork then t
    else t.(didMethodNetwork := t.didMethodNetwork[methodName := map[]])
  }

  /** Step 4 of registerDidMethodNetwork: set DidMethodNetwork[m][key] unless it is present. */
  function RegisterNetworkFlag(t: Tables, methodName: string, key: string, networkFlag: int): (s: Step)
    requires methodName in t.didMethodNetwork
    ensures s.outcome.Pass? <==> key !in t.didMethodNetwork[methodName]
    ensures s.outcome.Fail? ==>
      s.outcome.error == DidMethodNetworkAlreadyRegistered(key) && s.tables == t
    ensures methodName in s.tables.didMethodNetwork
    ensures s.outcome.Pass? ==>
      && key in s.tables.didMethodNetwork[methodName]
      && s.tables.didMethodNetwork[methodName][key] == networkFlag
    ensures forall k :: k != key ==>
      (k in s.tables.didMethodNetwork[methodName] <==> k in t.didMethodNetwork[methodName])
    ensures forall k :: k in t.didMethodNetwork[methodName] ==>
      s.tables.didMethodNetwork[methodName][k] == t.didMethodNetwork[methodName][k]
    ensures s.tables.didMethodNetwork.Keys == t.didMethodNetwork.Keys
    ensures forall m :: m in t.didMethodNetwork && m != methodName ==>
      s.tables.didMethodNetwork[m] == t.didMethodNetwork[m]
    ensures s.tables.(didMethodNetwork := t.didMethodNetwork) == t
  {
    var networks := t.didMethodNetwork[methodName];
    if key in networks then
      Step(t, Fail(DidMethodNetworkAlreadyRegistered(key)))
    else
      Step(t.(didMethodNetwork := t.didMethodNetwork[methodName := networks[key := networkFlag]]), Pass)
  }

  /**
   * registerDidMethodNetwork up to the byte: record the blockchain and network
   * names, then call registerDidMethodWithByte when a byte is given. Fails
   * exactly on a byte clash, keeping the names and the method name it wrote.
   */
  function ByteStep(t: Tables, req: NetworkRegistration): (s: Step)
    ensures s.outcome.Fail? <==> ByteClash(t, req)
    ensures s.outcome.Fail? ==> s.outcome.error == DidMethodAlreadyRegistered(req.methodName)
    ensures s.tables.blockchain == t.blockchain[req.blockchain := req.blockchain]
    ensures s.tables.networkId == t.networkId[req.network := req.network]
    ensures s.tables.didMethod ==
      if req.methodByte.Some? then t.didMethod[req.methodName := req.methodName] else t.didMethod
    ensures s.tables.didMethodByte ==
      if req.methodByte.Some? && !ByteClash(t, req)
      then t.didMethodByte[req.methodName := req.methodByte.value] else t.didMethodByte
    ensures s.tables.didMethodNetwork == t.didMethodNetwork && s.tables.chainIds == t.chainIds
  {
    var named := RecordNames(t, req.blockchain, req.network);
    if req.methodByte.Some? then RegisterDidMethodWithByte(named, req.methodName, req.methodByte.value)
    else Step(named, Pass)
  }

  /**
   * The next two steps, on the tables ByteStep leaves: give the method its
   * DidMethodNetwork entry, then call registerChainId when a chain ID is
   * given. Fails exactly on a chain ID clash, keeping the method's entry.
   */
  function ChainIdStep(t: Tables, req: NetworkRegistration): (s: Step)
    ensures s.outcome.Fail? <==> ChainIdClash(t, req)
    ensures s.outcome.Fail? ==> s.outcome.error == ChainIdAlreadyRegistered(ChainKey(req.blockchain, req.network))
    ensures s.tables.didMethodNetwork == t.didMethodNetwork[req.methodName := NetworksOf(t, req.methodName)]
    ensures s.tables.chainIds ==
      if req.chainId.Some? && !ChainIdClash(t, req)
      then t.chainIds[ChainKey(req.blockchain, req.network) := req.chainId.value] else t.chainIds
    ensures s.tables.(didMethodNetwork := t.didMethodNetwork, chainIds := t.chainIds) == ByteStep(t, req).tables
  {
    var entered := EnsureMethodEntry(ByteStep(t, req).tables, req.methodName);
    assert entered.didMethodNetwork == t.didMethodNetwork[req.methodName := NetworksOf(t, req.methodName)];
    if req.chainId.Some? then RegisterChainId(entered, req.blockchain, req.network, req.chainId.value)
    else Step(entered, Pass)
  }

  /**
   * registerDidMethodNetwork as the source runs it: record the blockchain and
   * network names; (1) registerDidMethodWithByte when a byte is given; (2) an
   * empty DidMethodNetwork entry for a new method; (3) registerChainId when a
   * chain ID is given; (4) the network flag. The first step that throws ends
   * the call with the tables as that step left them: nothing is undone.
   * RegistryProperties.RegisterDidMethodNetworkTables states the result table
   * by table in terms of the tables before the call.
   */
  function RegisterDidMethodNetwork(t: Tables, req: NetworkRegistration): (s: Step)
    ensures req.blockchain in s.tables.blockchain && req.network in s.tables.networkId
  {
    var byteStep := ByteStep(t, req);
    if byteStep.outcome.Fail? then byteStep
    else
      var chainStep := ChainIdStep(t, req);
      if chainStep.outcome.Fail? then chainStep
      else RegisterNetworkFlag(chainStep.tables, req.methodName, ChainKey(req.blockchain, req.network), req.networkFlag)
  }
}
