/**
 * The Locator type of locator.go: an ordered list of candidate
 * configuration files that only grows by appending, and the search for the
 * first candidate that exists.
 */
module Locator {
  import opened Search

  class Locator {
    /** The candidate files, in the order they were added (Go's nil slice is the empty list). */
    var configFiles: seq<string>

    /** The zero Locator: no candidates. */
    constructor()
      ensures configFiles == []
      ensures Len() == 0
    {
      configFiles := [];
    }

    /** The number of candidate locations added so far. */
    function Len(): (n: nat)
      reads this
      ensures n == 0 <==> configFiles == []
    {
      |configFiles|
    }

    /** Forget every candidate. */
    method Reset()
      modifies this
      ensures configFiles == []
      ensures Len() == 0
    {
      configFiles := [];
    }

    /** Append one candidate, with no existence check and no deduplication. */
    method AddFile(fileName: string)
      modifies this
      ensures configFiles == old(configFiles) + [fileName]
      ensures Len() == old(Len()) + 1
    {
      configFiles := configFiles + [fileName];
    }

    /** The first candidate, in insertion order, that exists; "" when none does. */
    method FindConfig(statOk: string -> bool) returns (found: string)
      ensures found == FirstExisting(configFiles, statOk)
    {
      found := FindFirst(configFiles, statOk);
    }

    /**
     * Add the default candidates for the running executable: the variable
     * <STEM>_CONFIG and the file name <stem>.config.
     */
    method AddDefaults(host: Host)
      modifies this
      ensures var stem := ExePath(host).stem;
        configFiles == old(configFiles) + DefaultCandidates(EnvNameFor(stem), CfgNameFor(stem), host)
    {
      var exe := ExePath(host);
      AddDefaultFiles(EnvNameFor(exe.stem), CfgNameFor(exe.stem), host);
    }

    /** Append the default candidates for the given variable and file name, in priority order. */
    method AddDefaultFiles(envName: string, cfgName: string, host: Host)
      modifies this
      ensures configFiles == old(configFiles) + DefaultCandidates(envName, cfgName, host)
    {
      configFiles := AppendDefaults(configFiles, envName, cfgName, host);
    }
  }
}
