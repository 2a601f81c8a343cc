/** The wallet session: the connected network, signer and address, the connecting flag, and the
    persisted connection tag that drives reconnection. */
module Wallet {
  import opened Types
  import opened Config
  import Cache

  /** The injected browser provider: the network it reports and the account it signs for. */
  datatype Web3Provider = Web3Provider(networkName: string, account: Address)

  /** The tag stored under the wallet key when Metamask connects. */
  const MetamaskTag := "metamask"

  /** The provider reports mainnet as "homestead"; the app calls it "mainnet". */
  function NormalizeNetwork(name: string): (network: string)
    ensures name == "homestead" ==> network == NetworkMainnet
    ensures name != "homestead" ==> network == name
  {
    if name == "homestead" then NetworkMainnet else name
  }

  /** The cached value names a wallet the app knows how to reconnect (only Metamask). */
  predicate KnownTag(v: Cache.Value) {
    v == Cache.Str(MetamaskTag)
  }

  /** The auto-reconnect effect connects exactly when no address is set and the cached tag is known. */
  predicate Reconnects(items: map<string, string>, address: Option<Address>) {
    !Truthy(address) && KnownTag(Cache.Read(items, CacheWalletKey))
  }

  /** After a disconnect no reconnection happens; after a connect, a fresh session with no address does
      reconnect. */
  lemma ConnectionTagDrivesReconnect(items: map<string, string>)
    ensures !Reconnects(Cache.Write(items, CacheWalletKey, Cache.Null), None)
    ensures Reconnects(Cache.Write(items, CacheWalletKey, Cache.Str(MetamaskTag)), None)
  {
    Cache.WriteThenRead(items, CacheWalletKey, Cache.Str(MetamaskTag));
  }

  /** An unknown tag never reconnects, and neither does a session that already has an address. */
  lemma ReconnectNeedsKnownTagAndNoAddress(items: map<string, string>, address: Option<Address>, tag: string)
    requires tag != MetamaskTag
    ensures !Reconnects(Cache.Write(items, CacheWalletKey, Cache.Str(tag)), None)
    ensures Truthy(address) ==> !Reconnects(items, address)
  {
    Cache.WriteThenRead(items, CacheWalletKey, Cache.Str(tag));
  }

  class WalletSession {
    var network: Option<string>
    var signer: Option<Signer>
    var address: Option<Address>
    var isConnecting: bool

    constructor ()
      ensures network == None && signer == None && address == None && !isConnecting
    {
      network, signer, address, isConnecting := None, None, None, false;
    }

    method StartConnecting()
      modifies this`isConnecting
      ensures isConnecting
    {
      isConnecting := true;
    }

    method StopConnecting()
      modifies this`isConnecting
      ensures !isConnecting
    {
      isConnecting := false;
    }

    /** `setProvider`: records the normalised network, the provider's signer and its address, and
        ends the connecting state. */
    method SetProvider(p: Web3Provider)
      modifies this
      ensures network == Some(NormalizeNetwork(p.networkName))
      ensures signer == Some(Signer(p.account)) && address == Some(p.account)
      ensures !isConnecting
    {
      network := Some(NormalizeNetwork(p.networkName));
      signer := Some(Signer(p.account));
      address := Some(p.account);
      StopConnecting();
    }

    /** `connectMetamask`: nothing without an injected provider or when the user rejects `enable`;
        otherwise the tag is stored first and then the provider is set. */
    method ConnectMetamask(ethereum: Option<Web3Provider>, enabled: bool, store: Cache.Store)
      modifies this, store
      ensures ethereum.None? || !enabled ==>
                network == old(network) && signer == old(signer) && address == old(address) &&
                isConnecting == old(isConnecting) && store.items == old(store.items)
      ensures ethereum.Some? && enabled ==>
                && store.items == Cache.Write(old(store.items), CacheWalletKey, Cache.Str(MetamaskTag))
                && network == Some(NormalizeNetwork(ethereum.value.networkName))
                && signer == Some(Signer(ethereum.value.account)) && address == Some(ethereum.value.account)
                && !isConnecting
    {
      if ethereum.None? || !enabled {
        return;
      }
      var _ := store.Cache(CacheWalletKey, [Cache.Str(MetamaskTag)]);
      SetProvider(ethereum.value);
    }

    /** `disconnect`: removes the tag and forgets the signer, address and network. */
    method Disconnect(store: Cache.Store)
      modifies this`signer, this`address, this`network, store
      ensures store.items == old(store.items) - {CacheWalletKey}
      ensures signer == None && address == None && network == None
    {
      var _ := store.Cache(CacheWalletKey, [Cache.Null]);
      signer := None;
      address := None;
      network := None;
    }

    /** The auto-reconnect effect: with no address, a cached known tag runs its connector. */
    method AutoReconnect(ethereum: Option<Web3Provider>, enabled: bool, store: Cache.Store) returns (reconnected: bool)
      modifies this, store
      ensures reconnected == Reconnects(old(store.items), old(address))
      ensures !reconnected ==>
                network == old(network) && signer == old(signer) && address == old(address) &&
                isConnecting == old(isConnecting) && store.items == old(store.items)
      ensures reconnected && (ethereum.None? || !enabled) ==>
                network == old(network) && signer == old(signer) && address == old(address) &&
                isConnecting == old(isConnecting) && store.items == old(store.items)
      ensures reconnected && ethereum.Some? && enabled ==>
                && store.items == Cache.Write(old(store.items), CacheWalletKey, Cache.Str(MetamaskTag))
                && address == Some(ethereum.value.account) && signer == Some(Signer(ethereum.value.account))
                && network == Some(NormalizeNetwork(ethereum.value.networkName)) && !isConnecting
    {
      reconnected := false;
      if Truthy(address) {
        return;
      }
      var cached := store.Cache(CacheWalletKey, []);
      if KnownTag(cached) {
        reconnected := true;
        ConnectMetamask(ethereum, enabled, store);
      }
    }
  }
}
