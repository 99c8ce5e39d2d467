/**
 * The registry of src/registration.ts as mutable state: one object holding
 * the six tables that the source keeps as module-level objects, with one
 * method per operation. Each method makes the source's guarded assignments in
 * the source's order and returns at the first check that fails, keeping what
 * it already wrote. Its contract ties the new tables and the outcome to the
 * value-level definition in RegistrySpec.
 */
module Registration {
  import opened RegistrySpec

  class Registry {
    var didMethod: map<string, string>
    var didMethodByte: map<string, int>
    var didMethodNetwork: map<string, map<string, int>>
    var chainIds: map<string, int>
    var blockchain: map<string, string>
    var networkId: map<string, string>

    /** The six tables as one value. */
    function Snapshot(): Tables
      reads this
    {
      Tables(didMethod, didMethodByte, didMethodNetwork, chainIds, blockchain, networkId)
    }

    /** A registry whose tables start as `initial`: whatever the constants module pre-populates. */
    constructor (initial: Tables)
      ensures Snapshot() == initial
    {
      didMethod := initial.didMethod;
      didMethodByte := initial.didMethodByte;
      didMethodNetwork := initial.didMethodNetwork;
      chainIds := initial.chainIds;
      blockchain := initial.blockchain;
      networkId := initial.networkId;
    }

    /** registerDidMethodWithByte (not exported by the source; called by RegisterDidMethodNetwork). */
    method RegisterDidMethodWithByte(methodName: string, byte: int) returns (r: Outcome)
      modifies this
      ensures Step(Snapshot(), r) == RegistrySpec.RegisterDidMethodWithByte(old(Snapshot()), methodName, byte)
    {
      didMethod := didMethod[methodName := methodName];
      if methodName in didMethodByte {
        return Fail(DidMethodAlreadyRegistered(methodName));
      }
      didMethodByte := didMethodByte[methodName := byte];
      return Pass;
    }

    /** registerChainId: insert `${blockchain}:${network}` into ChainIds unless it is present. */
    method RegisterChainId(blockchain: string, network: string, chainId: int) returns (r: Outcome)
      modifies this
      ensures Step(Snapshot(), r) == RegistrySpec.RegisterChainId(old(Snapshot()), blockchain, network, chainId)
    {
      var key := ChainKey(blockchain, network);
      if key in chainIds {
        return Fail(ChainIdAlreadyRegistered(key));
      }
      chainIds := chainIds[key := chainId];
      return Pass;
    }

    /** getChainId: reads ChainIds only; a stored 0 reads as not found. */
    method GetChainId(blockchain: string, network: Option<string>) returns (r: Result<int>)
      ensures r == RegistrySpec.GetChainId(Snapshot(), blockchain, network)
    {
      var key := blockchain;
      if network.Some? && network.value != "" {
        key := key + ":" + network.value;
      }
      if key !in chainIds || chainIds[key] == 0 {
        return Err(ChainIdNotFound(key));
      }
      return Ok(chainIds[key]);
    }

    /** chainIDfromDID, given the blockchain and network identifier the DID parser extracts. */
    method ChainIdFromDid(blockchain: string, networkId: string) returns (r: Result<int>)
      ensures r == RegistrySpec.ChainIdFromDid(Snapshot(), blockchain, networkId)
    {
      var key := ChainKey(blockchain, networkId);
      if key !in chainIds {
        return Err(ChainIdNotFound(key));
      }
      return Ok(chainIds[key]);
    }

    /**
     * registerDidMethodNetwork: the names, then the method byte, the method's
     * DidMethodNetwork entry, the chain ID and the network flag, stopping at
     * the first step that throws.
     */
    method RegisterDidMethodNetwork(req: NetworkRegistration) returns (r: Outcome)
      modifies this
      ensures Step(Snapshot(), r) == RegistrySpec.RegisterDidMethodNetwork(old(Snapshot()), req)
    {
      blockchain := blockchain[req.blockchain := req.blockchain];
      networkId := networkId[req.network := req.network];
      if req.methodByte.Some? {
        r := RegisterDidMethodWithByte(req.methodName, req.methodByte.value);
        if r.Fail? {
          return;
        }
      }

      if req.methodName !in didMethodNetwork {
        didMethodNetwork := didMethodNetwork[req.methodName := map[]];
      }

      if req.chainId.Some? {
        r := RegisterChainId(req.blockchain, req.network, req.chainId.value);
        if r.Fail? {
          return;
        }
      }

      var key := ChainKey(req.blockchain, req.network);
      if key in didMethodNetwork[req.methodName] {
        return Fail(DidMethodNetworkAlreadyRegistered(key));
      }
      var networks := didMethodNetwork[req.methodName];
      didMethodNetwork := didMethodNetwork[req.methodName := networks[key := req.networkFlag]];
      return Pass;
    }
  }
}
