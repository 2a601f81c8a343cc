/** The per-network constant tables of the app's configuration file. */
module Config {
  import opened Types

  const NetworkMainnet: string := "mainnet"
  const NetworkRinkeby: string := "rinkeby"
  const AvailableNetworks: seq<string> := [NetworkMainnet, NetworkRinkeby]

  /** Storage key under which the last wallet connection method is kept. */
  const CacheWalletKey: string := "wallet"

  const EwitAddress: map<string, Address> := map[
    NetworkRinkeby := "0x2ef5B89bFD5BA8C3b15879106C57010aA7A32D06",
    NetworkMainnet := "0x56ee175fe37cd461486ce3c3166e0cafccd9843f"]

  const UsdcAddress: map<string, Address> := map[
    NetworkRinkeby := "0x4DBCdF9B62e891a7cec5A2568C3F4FAF9E8Abe2b",
    NetworkMainnet := "0x4DBCdF9B62e891a7cec5A2568C3F4FAF9E8Abe2b"]

  const NftPositionsManagerAddress: map<string, Address> := map[
    NetworkRinkeby := "0xC36442b4a4522E871399CD717aBDD847Ab11FE88",
    NetworkMainnet := "0xC36442b4a4522E871399CD717aBDD847Ab11FE88"]

  /** The staking contract is not deployed on mainnet: its entry is the empty string. */
  const StakingRewardsAddress: map<string, Address> := map[
    NetworkRinkeby := "0xc462aB5e66067153Bf1B368493E4744C1cA4BeC9",
    NetworkMainnet := ""]
}
