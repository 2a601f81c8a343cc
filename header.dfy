/** The header: the shortened address and network, with Disconnect, when an address is set; the
    Connect Wallet button otherwise. */
module Header {
  import opened Types

  /** `s.slice(0, n)` for `n >= 0`. */
  function SliceHead(s: string, n: nat): string
  {
    if |s| <= n then s else s[..n]
  }

  /** `s.slice(-n)` for `n > 0`. */
  function SliceTail(s: string, n: nat): string
  {
    if |s| <= n then s else s[|s| - n..]
  }

  const Separator := "...."

  /** `address && `${address.slice(0, 6)}....${address.slice(-4)}``: null stays null and the empty
      address stays empty. */
  function ShortAddress(address: Option<string>): (short: Option<string>)
    ensures address.None? <==> short.None?
    ensures address == Some("") ==> short == Some("")
    ensures Truthy(address) ==>
              var a := address.value;
              && short.Some?
              && short.value == SliceHead(a, 6) + Separator + SliceTail(a, 4)
  {
    match address
    case None => None
    case Some(a) => if a == "" then Some("") else Some(SliceHead(a, 6) + Separator + SliceTail(a, 4))
  }

  /** A long enough address keeps its first six and last four characters around the separator. */
  lemma ShortAddressShape(a: string)
    requires |a| >= 10
    ensures var short := ShortAddress(Some(a)).value;
            && |short| == 14
            && short[..6] == a[..6]
            && short[6..10] == Separator
            && short[10..] == a[|a| - 4..]
  {
    var short := ShortAddress(Some(a)).value;
    assert short == a[..6] + Separator + a[|a| - 4..];
  }

  /** A short address is shown whole on both sides. */
  lemma ShortAddressOfShortText(a: string)
    requires 0 < |a| <= 4
    ensures ShortAddress(Some(a)) == Some(a + Separator + a)
  {
  }

  datatype HeaderView =
    | Connected(shortAddress: string, network: string)
    | ConnectButton

  /** A null network renders as nothing inside the parentheses. */
  function NetworkText(network: Option<string>): string
  {
    if network.Some? then network.value else ""
  }

  /** The header shows the connected view exactly when the address is truthy. */
  function View(address: Option<Address>, network: Option<string>): (v: HeaderView)
    ensures v.Connected? <==> Truthy(address)
    ensures v.Connected? ==> Some(v.shortAddress) == ShortAddress(address) && v.network == NetworkText(network)
  {
    if Truthy(address) then Connected(ShortAddress(address).value, NetworkText(network)) else ConnectButton
  }
}
