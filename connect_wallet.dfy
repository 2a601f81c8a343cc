/** The connect-wallet dialog: open while connecting or on an unsupported network; it shows either the
    wallet chooser or a prompt naming the supported networks. */
module ConnectWallet {
  import opened Types
  import opened Config

  /** `!network || ~AVAILABLE_NETWORKS.indexOf(network)`: an unknown (falsy) network is not held against
      the user. */
  predicate IsOnCorrectNetwork(network: Option<string>) {
    !Truthy(network) || network.value in AvailableNetworks
  }

  predicate DialogOpen(network: Option<string>, isConnecting: bool) {
    !IsOnCorrectNetwork(network) || isConnecting
  }

  /** `parts.join(sep)`. */
  function Join(parts: seq<string>, sep: string): string
  {
    if |parts| == 0 then ""
    else if |parts| == 1 then parts[0]
    else parts[0] + sep + Join(parts[1..], sep)
  }

  const Prompt := "Please connect to " + Join(AvailableNetworks, " or ") + "."

  datatype Dialog = Closed | WalletChooser | WrongNetwork(prompt: string)

  /** What the dialog shows for a wallet state. */
  function DialogFor(network: Option<string>, isConnecting: bool): (d: Dialog)
    ensures d == Closed <==> !DialogOpen(network, isConnecting)
    ensures d.WrongNetwork? <==> !IsOnCorrectNetwork(network)
    ensures d.WrongNetwork? ==> d.prompt == Prompt
  {
    if !DialogOpen(network, isConnecting) then Closed
    else if IsOnCorrectNetwork(network) then WalletChooser
    else WrongNetwork(Prompt)
  }

  /** The correct networks are exactly the falsy ones and the two supported names. */
  lemma CorrectNetworks(network: Option<string>)
    ensures IsOnCorrectNetwork(network) <==>
            network == None || network == Some("") || network == Some("mainnet") || network == Some("rinkeby")
  {
  }

  /** The prompt lists the supported networks joined by " or ". */
  lemma PromptText()
    ensures Prompt == "Please connect to mainnet or rinkeby."
  {
    assert Join(AvailableNetworks, " or ") == "mainnet" + " or " + Join(["rinkeby"], " or ");
  }
}
