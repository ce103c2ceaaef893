/** The method policy: a whitelist and a blacklist of JSON-RPC method names,
    read once at startup and never changed afterwards. */
module Policy {
  import opened Http

  /** The two lists of `config.json`, in file order. */
  datatype Config = Config(whitelisted: seq<Bytes>, blacklisted: seq<Bytes>)

  /** The scan of one list, front to back, stopping at the first entry equal
      to `name`; equality is exact and byte-wise, hence case-sensitive. */
  function Listed(name: Bytes, list: seq<Bytes>): (found: bool)
    ensures found <==> name in list
  {
    if |list| == 0 then false
    else if list[0] == name then true
    else Listed(name, list[1..])
  }

  /** `isMethodAllowed`: the blacklist is scanned first, then the whitelist,
      and a name on neither list is rejected. */
  function IsMethodAllowed(name: Bytes, config: Config): (allowed: bool)
    ensures name in config.blacklisted ==> !allowed
    ensures name in config.whitelisted && name !in config.blacklisted ==> allowed
    ensures name !in config.whitelisted ==> !allowed
  {
    if Listed(name, config.blacklisted) then false
    else if Listed(name, config.whitelisted) then true
    else false
  }

  /** Only which names the lists hold matters: reordering or repeating entries
      leaves every decision unchanged. */
  lemma DecisionDependsOnlyOnNames(name: Bytes, c1: Config, c2: Config)
    requires forall m :: m in c1.whitelisted <==> m in c2.whitelisted
    requires forall m :: m in c1.blacklisted <==> m in c2.blacklisted
    ensures IsMethodAllowed(name, c1) == IsMethodAllowed(name, c2)
  {
  }

  /** Admission is monotone in the whitelist and antitone in the blacklist:
      listing more names as allowed never rejects a name that was admitted,
      and listing more names as blocked never admits a name that was rejected. */
  lemma WideningTheWhitelistOnlyAdmits(name: Bytes, config: Config, extra: seq<Bytes>)
    requires IsMethodAllowed(name, config)
    ensures IsMethodAllowed(name, config.(whitelisted := config.whitelisted + extra))
  {
  }

  lemma WideningTheBlacklistOnlyRejects(name: Bytes, config: Config, extra: seq<Bytes>)
    requires !IsMethodAllowed(name, config)
    ensures !IsMethodAllowed(name, config.(blacklisted := config.blacklisted + extra))
  {
  }
}
