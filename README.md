# Chain and DID-method registry

A Dafny model of the registry in `src/registration.ts`. The registry keeps six
module-level lookup tables:

- `DidMethod`: method name to name;
- `DidMethodByte`: method name to its byte;
- `DidMethodNetwork`: method name to a map from `"<blockchain>:<network>"` to a network flag;
- `ChainIds`: `"<blockchain>:<network>"`, or a bare blockchain name, to a chain ID;
- `Blockchain` and `NetworkId`: blockchain and network names.

Four operations work on these tables:

- `registerChainId` inserts a chain ID and refuses to overwrite an existing one.
- `getChainId` looks a chain ID up and reads a stored `0` as "not found".
- `chainIDfromDID` looks a chain ID up from the blockchain and network of a parsed DID, and does find a stored `0`.
- `registerDidMethodNetwork` registers a method on a network in four ordered steps, through the private `registerDidMethodWithByte`. It is not transactional.

The project has three files:

- `registry_spec.dfy` (module `RegistrySpec`) holds the tables as one value, `Tables`. Each operation is a function from the tables before the call to a `Step`: the tables after the call, and `Pass` or `Fail(error)`. A failing step keeps exactly the writes the source makes before it throws.
- `registration.dfy` (module `Registration`) holds the class `Registry`. Its six `map` fields are the six tables. Each method makes the source's guarded assignments in the source's order and returns at the first check that fails. Its `ensures` equates the new tables and the outcome with the `RegistrySpec` function applied to the old tables.
- `registry_lemmas.dfy` (module `RegistryProperties`) proves what the operations promise together:
  - read-back after registration, and duplicate refusal;
  - the different treatment of `0` by the two lookups;
  - the order of the checks in `registerDidMethodNetwork`, and the writes that survive each failure;
  - that no sequence of calls, failing or not, ever removes an entry or rewrites a chain ID, method byte or network flag.

How values are modelled:

- Stored numbers are `int`.
- `typeof x === 'number'` is "the key is present".
- The truthiness test in `getChainId` (src/registration.ts:51) is "present and not 0".
- The optional `methodByte` and `chainId` are `Option<int>`.
- The optional `network` of `getChainId` is `Option<string>`. `if (network)` is false for both an omitted network and `""`, so both use the bare blockchain key.
- `method` is a Dafny keyword, so the method name is called `methodName`.
- The tables start from an arbitrary `Tables` value (the `Registry` constructor's argument), not from empty tables. The constants module may pre-populate them.

## Model

| member | source | states |
|---|---|---|
| `RegistrySpec.RegisterDidMethodWithByte` | src/registration.ts:11-19 | always writes `DidMethod[method] = method`; passes iff the method has no byte; on failure the error names the method; on success the method's byte is `byte`; the other bytes and all other tables are unchanged |
| `RegistrySpec.RegisterChainId` | src/registration.ts:29-37 | passes iff the key `blockchain:network` is absent; on failure the tables are unchanged, even when the new chain ID differs; on success the key holds `chainId`; every other key and table is unchanged |
| `RegistrySpec.LookupKey` | src/registration.ts:47-49 | the key is `blockchain:network` for a non-empty network, and the bare blockchain when the network is omitted or empty |
| `RegistrySpec.GetChainId` | src/registration.ts:46-55 | with the key `LookupKey` builds, succeeds iff that key is present and non-zero, and then returns the stored value; otherwise a not-found error for that key |
| `RegistrySpec.ChainIdFromDid` | src/registration.ts:70-75 | succeeds iff `blockchain:networkId` is present, `0` included; returns the stored value; otherwise a not-found error for that key |
| `RegistrySpec.RecordNames` | src/registration.ts:112-113 | `Blockchain[blockchain]` becomes `blockchain` and `NetworkId[network]` becomes `network`; the other entries of both tables keep their values, and the other tables are unchanged |
| `RegistrySpec.EnsureMethodEntry` | src/registration.ts:118-120 | afterwards the method has a `DidMethodNetwork` entry: its old sub-map, or an empty one; the other methods and tables are unchanged |
| `RegistrySpec.RegisterNetworkFlag` | src/registration.ts:126-130 | passes iff the key is absent from the method's sub-map; on failure nothing changes; on success the key holds the flag; the other keys of the sub-map, the other methods and the other tables are unchanged |
| `RegistrySpec.ByteStep` | src/registration.ts:112-116 | the names are recorded; with a byte, the method name is recorded and the byte is set unless the method already has one; fails exactly on that clash; `DidMethodNetwork` and `ChainIds` are unchanged |
| `RegistrySpec.ChainIdStep` | src/registration.ts:118-124 | after the byte step, the method has a `DidMethodNetwork` entry holding its old flags; with a chain ID, it is set unless the key is present; fails exactly on that clash; everything else is as the byte step left it |
| `RegistrySpec.RegisterDidMethodNetwork` | src/registration.ts:97-131 | records the blockchain and network names whether or not a later step fails |
| `Registration.Registry.constructor` | src/registration.ts:1-8 | the six tables start as given: any pre-populated registry |
| `Registration.Registry.RegisterDidMethodWithByte` | src/registration.ts:11-19 | new tables and outcome are those of `RegistrySpec.RegisterDidMethodWithByte` on the old tables |
| `Registration.Registry.RegisterChainId` | src/registration.ts:29-37 | new tables and outcome are those of `RegistrySpec.RegisterChainId` on the old tables |
| `Registration.Registry.GetChainId` | src/registration.ts:46-55 | reads only; returns `RegistrySpec.GetChainId` of the current tables |
| `Registration.Registry.ChainIdFromDid` | src/registration.ts:63-76 | reads only; returns `RegistrySpec.ChainIdFromDid` of the current tables for the blockchain and network the DID parser yields |
| `Registration.Registry.RegisterDidMethodNetwork` | src/registration.ts:97-131 | the four steps in order, stopping at the first failure; new tables and outcome are those of `RegistrySpec.RegisterDidMethodNetwork` on the old tables |
| `RegistryProperties.RegisterChainIdThenGetChainId` | src/registration.ts:29-54 | for a non-empty network, a fresh non-zero chain ID, once registered, is returned by `getChainId(blockchain, network)` |
| `RegistryProperties.EmptyNetworkChainIdIsNotReadBack` | src/registration.ts:29-54 | with an empty network, `registerChainId` writes the key `blockchain:` but `getChainId(blockchain, "")` reads the bare key `blockchain`, so a fresh chain ID is not read back; `chainIDfromDID` does read it |
| `RegistryProperties.RegisterChainIdThenChainIdFromDid` | src/registration.ts:29-75 | a fresh chain ID, `0` included, once registered, is returned by `chainIDfromDID` |
| `RegistryProperties.RegisterChainIdTwice` | src/registration.ts:32-34 | a second registration of the same key fails whatever its chain ID; the tables and the first value stay |
| `RegistryProperties.ZeroChainIdIsFoundOnlyFromDid` | src/registration.ts:51-53 | a registered `0` is found by `chainIDfromDID` and reported not found by `getChainId` |
| `RegistryProperties.GetChainIdAgreesWithChainIdFromDid` | src/registration.ts:46-75 | for a non-empty network, `getChainId` succeeds iff `chainIDfromDID` succeeds with a non-zero value, and then both return the same value |
| `RegistryProperties.GetChainIdEmptyNetworkIsOmitted` | src/registration.ts:47-50 | `getChainId(b, "")` equals `getChainId(b)`, which succeeds iff the bare key `b` holds a non-zero value |
| `RegistryProperties.RegisterDidMethodNetworkOutcome` | src/registration.ts:114-129 | the error is the byte clash if any, else the chain ID clash, else the flag clash, each judged on the tables before the call; otherwise the call passes |
| `RegistryProperties.RegisterDidMethodNetworkNames` | src/registration.ts:112-115 | both names are always recorded; the method is recorded in `DidMethod` exactly when a byte is given |
| `RegistryProperties.RegisterDidMethodNetworkByte` | src/registration.ts:114-116 | the byte is set exactly when one is given and the method had none, whatever the later steps do |
| `RegistryProperties.RegisterDidMethodNetworkChainId` | src/registration.ts:122-124 | the chain ID is set exactly when one is given and neither the byte check nor the chain ID check failed |
| `RegistryProperties.RegisterDidMethodNetworkFlags` | src/registration.ts:118-130 | `DidMethodNetwork` is unchanged after a byte clash; otherwise the method has an entry, and it gains the flag only when no check failed |
| `RegistryProperties.RegisterDidMethodNetworkTables` | src/registration.ts:112-130 | all six tables after the call, in terms of the tables before it: the partial commit of every failure path |
| `RegistryProperties.ChainIdClashKeepsMethodByte` | src/registration.ts:114-124 | a chain ID clash fails the call but keeps the byte written by the same call and the method's new entry |
| `RegistryProperties.FlagClashKeepsChainIdAndByte` | src/registration.ts:114-130 | a flag clash fails the call but keeps the chain ID and the byte written by the same call |
| `RegistryProperties.RegisterDidMethodNetworkSetsFlag` | src/registration.ts:126-130 | on success the flag is set for `blockchain:network`; the method's other flags and the other methods are unchanged |
| `RegistryProperties.RegisterDidMethodNetworkTwice` | src/registration.ts:114-129 | repeating a successful call fails on the byte if one was given, else on the chain ID if one was given, else on the flag |
| `RegistryProperties.MethodByteTwice` | src/registration.ts:14-16 | a second call that gives a byte for the same method fails with the method error, even on another blockchain and network |
| `RegistryProperties.RegisterDidMethodNetworkThenChainIdFromDid` | src/registration.ts:122-124 | after a successful call that gives a chain ID, `chainIDfromDID` on that blockchain and network returns it |
| `RegistryProperties.EthMainExample` | src/registration.ts:97-131 | on empty tables, method `m1` with byte 1 on `eth`/`main`, flag 16 and chain ID 1 passes; `chainIDfromDID` and `getChainId("eth", "main")` then give 1, and the bare key `eth` stays unknown |
| `RegistryProperties.ExtendsTransitive` | src/registration.ts:11-131 | keeping every entry is transitive |
| `RegistryProperties.RegisterChainIdExtends` | src/registration.ts:29-37 | `registerChainId` keeps every entry, pass or fail |
| `RegistryProperties.RegisterDidMethodNetworkExtends` | src/registration.ts:97-131 | `registerDidMethodNetwork` keeps every entry, pass or fail |
| `RegistryProperties.RunExtends` | src/registration.ts:11-131 | any sequence of registration calls, with failed calls keeping their partial writes, removes no entry and rewrites no chain ID, byte or flag |
| `RegistryProperties.LookupsSurviveRegistration` | src/registration.ts:46-75 | a lookup that succeeds returns the same chain ID after any further registration calls |

## Left out

- DID parsing (`DID.idFromDID`, `DID.blockchainFromId`, `DID.networkIdFromId`, src/registration.ts:64-68). The `./did` module is not part of this model. `chainIDfromDID` takes the blockchain and network identifier that the parser would produce.
- The initial contents of the tables from `./constants`. That module is not part of this model. Every operation and lemma holds for arbitrary initial tables.
- JavaScript value semantics. Stored values are integers. A key that holds a non-number (`undefined`, a string) is not modelled, and `NaN` is not modelled. Keys that name `Object.prototype` members are treated as absent: in the source `getChainId("constructor")` returns a function instead of throwing, and a byte stored under `__proto__` is never kept, so registering that method again passes. Error message strings become the `Error` datatype, carrying the name or key the message names.
- The name tables `DidMethod`, `Blockchain` and `NetworkId` map a name to itself when these operations write them. `RegistryProperties.Extends` compares only their key sets, because a pre-populated entry may map a name to a different value and is overwritten.
- Keys are built by plain concatenation `blockchain + ":" + network`. Colon collisions between different pairs are not ruled out, and nothing about them is proved.
- Concurrency and module-global sharing. The model uses one explicit `Registry` object.
- The `exported` status of the operations. `registerDidMethodWithByte` is private in the source and public in the model, so that the steps can be stated on their own.
