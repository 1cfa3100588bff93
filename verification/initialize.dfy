/**
 * `initializeMachine` of src/index.ts: one transaction that allocates the
 * config account, funds the authority, writes the config header and the
 * whole catalog, and creates the candy machine.
 *
 * Fresh keypairs, the wallet, the catalog read from the mint data file, the
 * derivation and the rent query are parameters.
 */
module Initialize {
  import opened Solana
  import opened Addresses
  import opened Instructions
  import opened Layout

  /** The lamports the authority receives from the wallet. */
  const AuthorityFunding: nat := 5

  /** The royalty shares of a creator list, summed. */
  function TotalShares(creators: seq<Creator>): nat
  {
    if creators == [] then 0 else creators[0].share + TotalShares(creators[1..])
  }

  /**
   * Config settings the header can hold and the program can accept: uuid and
   * symbol within their reserved bytes, at most five creators whose shares
   * make up 100%, and a seller fee of at most 100% (10000 basis points).
   */
  predicate ConfigValid(data: ConfigData)
  {
    && |data.uuid| <= UuidBytes
    && |data.symbol| <= SymbolBytes
    && |data.creators| <= MaxCreators
    && TotalShares(data.creators) == 100
    && data.sellerFeeBasisPoints <= 10_000
  }

  /**
   * `createConfig`: one item per catalog line, a single edition per item,
   * mutable metadata, and the wallet as the only creator, unverified, with
   * the whole royalty share.
   */
  function CreateConfig(wallet: Pubkey, config: Pubkey, authority: Pubkey, uuid: string,
                        retainAuthority: bool, catalog: seq<ConfigLine>): (call: CandyCall)
    ensures call.InitializeConfig?
    ensures call.data.maxNumberOfLines == |catalog| && call.data.maxSupply == 1 && call.data.isMutable
    ensures call.data.retainAuthority == retainAuthority
    ensures call.data.uuid == uuid && call.data.symbol == Symbol && call.data.sellerFeeBasisPoints == Royalty
    ensures call.data.creators == [Creator(wallet, false, 100)]
    ensures ConfigValid(call.data) <==> |uuid| <= UuidBytes
    ensures call.config == config && call.authority == authority && call.payer == wallet && call.rent == SysvarRent
  {
    var data := ConfigData(
      uuid := uuid,
      maxNumberOfLines := |catalog|,
      symbol := Symbol,
      sellerFeeBasisPoints := Royalty,
      isMutable := true,
      maxSupply := 1,
      retainAuthority := retainAuthority,
      creators := [Creator(wallet, false, 100)]);
    assert TotalShares(data.creators) == 100 by {
      assert data.creators[1..] == [];
    }
    InitializeConfig(data, config, authority, wallet, SysvarRent)
  }

  /** `addConfigLines`: the whole catalog, written from line 0. */
  function AddConfigLinesCall(config: Pubkey, authority: Pubkey, catalog: seq<ConfigLine>): (call: CandyCall)
    ensures call.AddConfigLines? && call.index == 0 && call.lines == catalog
    ensures call.config == config && call.authority == authority
  {
    AddConfigLines(0, catalog, config, authority)
  }

  /**
   * `initializeMachine`. The config's uuid and the candy machine's uuid are
   * cut from two further fresh keys. Every account that funds or is created
   * by the transaction is among its signers [wallet, authority, config].
   */
  function InitializeMachine(wallet: Pubkey, config: Pubkey, authority: Pubkey, uuidKey: Pubkey,
                             machineUuidKey: Pubkey, catalog: seq<ConfigLine>,
                             derive: Deriver, rent: nat -> nat): (rpc: Rpc)
    ensures SignedBy(Transaction(rpc), rpc.signers)
  {
    var configInstr := CreateConfig(wallet, config, authority, Uuid(uuidKey), true, catalog);
    var addInstr := AddConfigLinesCall(config, authority, catalog);
    var machineUuid := Uuid(machineUuidKey);
    var machine := GetCandyMachine(derive, config, machineUuid);
    Rpc(
      InitializeCandyMachine(machine.bump, CandyMachineData(machineUuid, Price, |catalog|, None),
                             machine.address, wallet, config, authority, wallet, SystemProgramId, SysvarRent),
      [wallet, authority, config],
      [ CreateAccount(wallet, config, AllocatedSpace, rent(AllocatedSpace), CandyMachineProgramId),
        Transfer(wallet, authority, AuthorityFunding),
        ProgramCall(configInstr),
        ProgramCall(addInstr) ])
  }

  /**
   * The transaction is createAccount of the config under the candy-machine
   * program, the transfer to the authority, initializeConfig,
   * addConfigLines, and last initializeCandyMachine; the config is allocated
   * 1456 bytes and funded with the rent-exempt balance of exactly that size.
   * The config call is `createConfig` with the first uuid and authority
   * retained, the lines call is `addConfigLines` for the same config, and
   * the signers are exactly [wallet, authority, config].
   */
  lemma InitializeOrder(wallet: Pubkey, config: Pubkey, authority: Pubkey, uuidKey: Pubkey,
                        machineUuidKey: Pubkey, catalog: seq<ConfigLine>, derive: Deriver, rent: nat -> nat)
    ensures var tx := Transaction(InitializeMachine(wallet, config, authority, uuidKey, machineUuidKey, catalog, derive, rent));
      && |tx| == 5
      && tx[0] == CreateAccount(wallet, config, 1456, rent(1456), CandyMachineProgramId)
      && tx[1] == Transfer(wallet, authority, 5)
      && tx[2] == ProgramCall(CreateConfig(wallet, config, authority, Uuid(uuidKey), true, catalog))
      && tx[2].call.data.retainAuthority
      && tx[3] == ProgramCall(AddConfigLinesCall(config, authority, catalog))
      && tx[4].ProgramCall? && tx[4].call.InitializeCandyMachine?
    ensures InitializeMachine(wallet, config, authority, uuidKey, machineUuidKey, catalog, derive, rent).signers
      == [wallet, authority, config]
  {
    LayoutConstants();
  }

  /**
   * The config declares one line per catalog entry, the candy machine offers
   * one item per entry, addConfigLines writes every entry from line 0, the
   * header settings are valid, and the fixed allocation has room for the
   * declared lines exactly when the catalog has at most five entries.
   */
  lemma InitializeCapacity(wallet: Pubkey, config: Pubkey, authority: Pubkey, uuidKey: Pubkey,
                           machineUuidKey: Pubkey, catalog: seq<ConfigLine>, derive: Deriver, rent: nat -> nat)
    ensures var tx := Transaction(InitializeMachine(wallet, config, authority, uuidKey, machineUuidKey, catalog, derive, rent));
      && |tx| == 5 && tx[0].CreateAccount? && tx[2].ProgramCall? && tx[2].call.InitializeConfig?
      && tx[3].ProgramCall? && tx[3].call.AddConfigLines? && tx[4].ProgramCall? && tx[4].call.InitializeCandyMachine?
      && var declared := tx[2].call.data.maxNumberOfLines;
      && declared == tx[4].call.machineData.itemsAvailable == |tx[3].call.lines|
      && tx[3].call.index == 0 && tx[3].call.lines == catalog
      && ConfigValid(tx[2].call.data)
      && (tx[0].space >= ConfigSpace(declared) <==> |catalog| <= 5)
  {
    AllocationCovers(|catalog|);
  }

  /**
   * The candy machine's uuid fits the six bytes the header reserves, it sells
   * at the configured price with no go-live date, and it sits at the address
   * derived from the config and its uuid, with the bump found for it. The
   * call names the config, the authority, the wallet as wallet and payer, the
   * system program and the rent sysvar.
   */
  lemma InitializeMachineAccounts(wallet: Pubkey, config: Pubkey, authority: Pubkey, uuidKey: Pubkey,
                                  machineUuidKey: Pubkey, catalog: seq<ConfigLine>, derive: Deriver, rent: nat -> nat)
    ensures var rpc := InitializeMachine(wallet, config, authority, uuidKey, machineUuidKey, catalog, derive, rent);
      && rpc.call.InitializeCandyMachine?
      && |rpc.call.machineData.uuid| <= UuidBytes
      && rpc.call.machineData.price == 5 * Sol && rpc.call.machineData.goLiveDate == None
      && var found := derive(CandyMachineSeeds(config, rpc.call.machineData.uuid), CandyMachineProgramId);
      && rpc.call.candyMachine == found.address && rpc.call.bump == found.bump
      && rpc.call.config == config && rpc.call.authority == authority
      && rpc.call.payer == wallet && rpc.call.wallet == wallet
      && rpc.call.systemProgram == SystemProgramId && rpc.call.rent == SysvarRent
  {
  }
}
