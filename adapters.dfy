/**
 * The tool-adapter registry of the minimal flows: a name-to-adapter dictionary that
 * `register` overwrites in place, and the dry-run switch read from the environment.
 */
module Adapters {
  import opened Wrappers
  import opened Strs

  /** The adapters the registry can hold; the network adapters themselves are left out. */
  datatype Adapter = GitHubIssuesAdapter | GDriveDocsAdapter | CustomAdapter(tag: string)

  /** `dict.get(name)` on the adapter table. */
  function Lookup(adapters: map<string, Adapter>, name: string): (r: Option<Adapter>)
    ensures r.Some? <==> name in adapters
    ensures r.Some? ==> r.value == adapters[name]
  {
    if name in adapters then Some(adapters[name]) else None
  }

  class ToolRegistry {
    var adapters: map<string, Adapter>

    /** A new registry holds no adapter. */
    constructor ()
      ensures adapters == map[]
    {
      adapters := map[];
    }

    /** `register`: the name now maps to the adapter, replacing any earlier one; every other
        name keeps what it had. */
    method Register(name: string, adapter: Adapter)
      modifies this
      ensures Get(name) == Some(adapter)
      ensures forall n :: n != name ==> Get(n) == old(Get(n))
      ensures adapters.Keys == old(adapters.Keys) + {name}
    {
      adapters := adapters[name := adapter];
    }

    /** `get`: the registered adapter, or none for an unknown name. */
    function Get(name: string): (r: Option<Adapter>)
      reads this
      ensures r == Lookup(adapters, name)
    {
      Lookup(adapters, name)
    }

    /** `ToolRegistry.default()`: a new registry with exactly the GitHub issues and Google
        Drive documents adapters. */
    static method Default() returns (reg: ToolRegistry)
      ensures fresh(reg)
      ensures reg.adapters == map["github_issues" := GitHubIssuesAdapter, "gdrive_docs" := GDriveDocsAdapter]
    {
      reg := new ToolRegistry();
      reg.Register("github_issues", GitHubIssuesAdapter);
      reg.Register("gdrive_docs", GDriveDocsAdapter);
    }
  }

  /** The values of `DRY_RUN` that switch dry-run mode on, after lower-casing. */
  const DryRunValues: set<string> := {"1", "true", "yes"}

  /** `is_dry_run`: an unset variable reads as the empty string, which is not a dry-run value. */
  predicate IsDryRun(dryRunEnv: Option<string>) {
    Lower(dryRunEnv.GetOr("")) in DryRunValues
  }

  /** The switch ignores case: any upper/lower-case spelling of a value decides alike. */
  lemma DryRunIgnoresCase(s: string)
    ensures IsDryRun(Some(Upper(s))) <==> IsDryRun(Some(s))
    ensures IsDryRun(Some(Lower(s))) <==> IsDryRun(Some(s))
  {
    assert Lower(Upper(s)) == Lower(s);
    assert Lower(Lower(s)) == Lower(s);
  }

  /** Dry-run mode is off when the variable is unset. */
  lemma DryRunUnset()
    ensures !IsDryRun(None)
  {
    assert Lower("") == "";
  }
}
