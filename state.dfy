/** The in-memory wallet state of the API: a single `StateManager` holding a
    `WalletState` (private key, address, initialised flag), the guard that
    refuses work before a wallet is set, and the two accessors that refuse an
    unset key or address. Locks are not modelled: every operation is one
    sequential step. */
module State {
  import opened Wrappers
  import opened PyText

  datatype WalletState = WalletState(privateKey: Option<string>, address: Option<string>, isInitialized: bool)

  /** `WalletState()`: nothing set. */
  const EmptyWallet := WalletState(None, None, false)

  /** What `get_wallet_info` returns: there is no field for the key. */
  datatype WalletInfo = WalletInfo(address: Option<string>, isInitialized: bool)

  const NotInitialized := "Wallet not initialized. Please call /wallet/create first."

  class StateManager {
    var wallet: WalletState   // `_wallet_state`
    var initialized: bool     // `_initialized`

    /** `StateManager.__new__` on first use: a new instance, not yet initialised. */
    constructor Allocate()
      ensures !initialized && wallet == EmptyWallet
    {
      wallet := EmptyWallet;
      initialized := false;
    }

    /** `__init__`: builds an empty wallet state the first time only. */
    method Init()
      modifies this
      ensures initialized
      ensures old(initialized) ==> wallet == old(wallet)
      ensures !old(initialized) ==> wallet == EmptyWallet
    {
      if !initialized {
        wallet := EmptyWallet;
        initialized := true;
      }
    }

    method SetWallet(privateKey: string, address: string)
      modifies this`wallet
      ensures PrivateKey() == Some(privateKey) && Address() == Some(address) && IsWalletInitialized()
    {
      wallet := WalletState(Some(privateKey), Some(address), true);
    }

    function PrivateKey(): Option<string>
      reads this
    {
      wallet.privateKey
    }

    function Address(): Option<string>
      reads this
    {
      wallet.address
    }

    predicate IsWalletInitialized()
      reads this
    {
      wallet.isInitialized
    }

    /** `clear_wallet`: nothing of the previous wallet is retained. */
    method ClearWallet()
      modifies this`wallet
      ensures wallet == EmptyWallet
      ensures PrivateKey() == None && Address() == None && !IsWalletInitialized()
    {
      wallet := EmptyWallet;
    }

    function GetWalletInfo(): (r: WalletInfo)
      reads this
      ensures r.address == Address() && r.isInitialized == IsWalletInitialized()
    {
      WalletInfo(wallet.address, wallet.isInitialized)
    }
  }

  /** The wallet info depends on the address and the flag only: two managers
      that differ in their keys alone report the same. */
  lemma WalletInfoIgnoresKey(m: StateManager, n: StateManager)
    requires m.Address() == n.Address() && m.IsWalletInitialized() == n.IsWalletInitialized()
    ensures m.GetWalletInfo() == n.GetWalletInfo()
  {
  }

  /** The class attribute `StateManager._instance`. */
  class Registry {
    var instance: StateManager?

    /** The instance, once created, has been through `__init__`. */
    ghost predicate Valid()
      reads this, instance
    {
      instance != null ==> instance.initialized
    }

    constructor ()
      ensures Valid() && instance == null
    {
      instance := null;
    }

    /** `StateManager()`: the one instance, created on first use; calling it
        again returns that instance with its wallet state untouched. */
    method Obtain() returns (m: StateManager)
      requires Valid()
      modifies this, instance
      ensures Valid() && instance == m
      ensures old(instance) != null ==> m == old(instance) && m.wallet == old(instance.wallet)
      ensures old(instance) == null ==> fresh(m) && m.wallet == EmptyWallet
    {
      if instance == null {
        instance := new StateManager.Allocate();
      }
      m := instance;
      m.Init();
    }
  }

  /** The manager handed out twice keeps what was set through the first handle. */
  method ObtainTwice(registry: Registry, privateKey: string, address: string)
    returns (first: StateManager, second: StateManager)
    requires registry.Valid()
    modifies registry, registry.instance
    ensures registry.Valid()
    ensures second == first
    ensures second.PrivateKey() == Some(privateKey) && second.Address() == Some(address)
  {
    first := registry.Obtain();
    first.SetWallet(privateKey, address);
    second := registry.Obtain();
  }

  /** `get_current_private_key`: the stored key, refused when it is unset or empty. */
  function CurrentPrivateKey(m: StateManager): (r: Result<string, string>)
    reads m
    ensures r.Success? <==> Truthy(m.PrivateKey())
    ensures r.Success? ==> m.PrivateKey() == Some(r.value)
    ensures r.Failure? ==> r.error == NotInitialized
  {
    if Truthy(m.wallet.privateKey) then Success(m.wallet.privateKey.value) else Failure(NotInitialized)
  }

  /** `get_current_address`: the stored address, refused when it is unset or empty. */
  function CurrentAddress(m: StateManager): (r: Result<string, string>)
    reads m
    ensures r.Success? <==> Truthy(m.Address())
    ensures r.Success? ==> m.Address() == Some(r.value)
    ensures r.Failure? ==> r.error == NotInitialized
  {
    if Truthy(m.wallet.address) then Success(m.wallet.address.value) else Failure(NotInitialized)
  }

  /** A wallet set with an empty key counts as initialised, yet the key accessor
      still refuses it. */
  method EmptyKeyAccepted(m: StateManager, address: string)
    modifies m
    ensures m.IsWalletInitialized() && CurrentPrivateKey(m).Failure?
  {
    m.SetWallet("", address);
  }

  /** `require_wallet_initialized()(f)` applied: `f` runs, and its result is
      returned unchanged, only when the wallet is initialised. */
  method RequireWalletInitialized<T>(m: StateManager, f: () -> T) returns (r: Result<T, string>, called: bool)
    ensures called <==> m.IsWalletInitialized()
    ensures called ==> r == Success(f())
    ensures !called ==> r == Failure(NotInitialized)
  {
    if !m.wallet.isInitialized {
      return Failure(NotInitialized), false;
    }
    r, called := Success(f()), true;
  }
}
