/** The outside world the contract queries while it runs: what kind of account
    lives at each address (a plain account, a sender contract that answers
    `getState()` with its admin list and approval threshold, or a contract
    without that query) and each address's balance. It is passed to every
    call that reads it, so each call sees the world as it is at that moment. */
module Oracle {
  import opened Registry

  /** What the contract learns about an address when it probes it. */
  datatype AddressKind =
    | Eoa
    | ContractWithState(admins: seq<Address>, minReq: nat)
    | ContractWithoutGetState

  /** A snapshot of the chain: kinds and balances of accounts; an address
      missing from a map is a plain account holding nothing. */
  datatype World = World(kinds: map<Address, AddressKind>, balances: map<Address, nat>)
  {
    function KindOf(a: Address): AddressKind
    {
      if a in kinds then kinds[a] else Eoa
    }

    function BalanceOf(a: Address): nat
    {
      if a in balances then balances[a] else 0
    }
  }

  /** Whether code is deployed at `a`: false exactly for plain accounts. */
  function IsContractAddr(w: World, a: Address): (b: bool)
    ensures b <==> (a in w.kinds && w.kinds[a] != Eoa)
  {
    !w.KindOf(a).Eoa?
  }
}
