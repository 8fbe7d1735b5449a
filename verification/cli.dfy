/**
 * Run.main: two positional flags choose the network and the spend mode; any
 * other command line prints the usage text and exits with status -1.
 */
module Cli {
  import opened Wrappers
  import opened Bitcoin

  /** The status System.exit receives after the usage text. */
  const UsageExitStatus: int := -1

  /** What a CLTVRefund instance is constructed with. */
  datatype Config = Config(network: Network, spendAfterExpiry: bool)

  /** The usage exit, or the single session started with the parsed configuration. */
  datatype Outcome = UsageExit(status: int) | Launch(config: Config)

  /** The flag that selects each network. */
  function NetworkFlag(n: Network): string
  {
    match n
    case RegTest => "-regtest"
    case TestNet3 => "-testnet"
    case MainNet => "-mainnet"
  }

  /** The flag that selects each spend mode. */
  function SpendModeFlag(spendAfterExpiry: bool): string
  {
    if spendAfterExpiry then "-afterLockTime" else "-beforeLockTime"
  }

  /** The command line that starts a session with configuration `c`. */
  function Flags(c: Config): seq<string>
  {
    [NetworkFlag(c.network), SpendModeFlag(c.spendAfterExpiry)]
  }

  /** The network flag, matched exactly (String.equals). */
  function ParseNetwork(flag: string): (r: Option<Network>)
    ensures r.Some? ==> NetworkFlag(r.value) == flag
    ensures forall n: Network :: flag == NetworkFlag(n) ==> r == Some(n)
  {
    if flag == "-regtest" then Some(RegTest)
    else if flag == "-testnet" then Some(TestNet3)
    else if flag == "-mainnet" then Some(MainNet)
    else None
  }

  /** The spend-mode flag, matched exactly; Some(true) means spend after expiry. */
  function ParseSpendMode(flag: string): (r: Option<bool>)
    ensures r.Some? ==> SpendModeFlag(r.value) == flag
    ensures forall b: bool :: flag == SpendModeFlag(b) ==> r == Some(b)
  {
    if flag == "-beforeLockTime" then Some(false)
    else if flag == "-afterLockTime" then Some(true)
    else None
  }

  /**
   * Run.main: a session starts exactly when there are two arguments, the
   * first a network flag and the second a spend-mode flag; it carries what
   * they select. Anything else ends in the usage exit with status -1.
   */
  function RunMain(args: seq<string>): (o: Outcome)
    ensures o.UsageExit? ==> o.status == UsageExitStatus
    ensures o.Launch? <==> |args| == 2 && ParseNetwork(args[0]).Some? && ParseSpendMode(args[1]).Some?
    ensures o.Launch? ==> args == Flags(o.config)
  {
    if |args| != 2 then UsageExit(UsageExitStatus)
    else match (ParseNetwork(args[0]), ParseSpendMode(args[1]))
      case (Some(network), Some(after)) => Launch(Config(network, after))
      case _ => UsageExit(UsageExitStatus)
  }

  /** Every configuration is reachable, from exactly its own flags. */
  lemma RunMainRoundTrip(c: Config, args: seq<string>)
    ensures RunMain(Flags(c)) == Launch(c)
    ensures RunMain(args) == Launch(c) <==> args == Flags(c)
  {
  }

  /** Flags differing in case or missing the dash are rejected. */
  lemma FlagsAreCaseSensitive()
    ensures RunMain(["-RegTest", "-beforeLockTime"]) == UsageExit(UsageExitStatus)
    ensures RunMain(["regtest", "-beforeLockTime"]) == UsageExit(UsageExitStatus)
    ensures RunMain(["-regtest", "-afterlocktime"]) == UsageExit(UsageExitStatus)
  {
  }
}
