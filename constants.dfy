/** The OS options and the per-OS manager table (src/lib/constants.ts). */
module Constants {
  import opened Types
  import opened Seqs

  /** `osOptions`: the OS buttons, in display order. */
  function OsOptions(): (r: seq<OS>)
    ensures r == AllOS()
    ensures r[0] == Windows && r[1] == MacOS && r[2] == Linux
  {
    [Windows, MacOS, Linux]
  }

  /** `pkgManagers[os]`: the managers offered for `os`, default first. The
      list holds exactly the managers of the OS's group, once each. */
  function PkgManagers(os: OS): (r: seq<PkgManager>)
    ensures |r| > 0 && NoDuplicates(r)
    ensures forall p :: p in r <==> GroupOf(p) == os
  {
    match os
    case Windows => [Choco, Winget, Scoop]
    case MacOS => [Homebrew]
    case Linux => [Apt, Dnf, Pacman]
  }

  /** The default manager of each OS. */
  lemma DefaultManagers()
    ensures PkgManagers(Windows)[0] == Choco
    ensures PkgManagers(MacOS)[0] == Homebrew
    ensures PkgManagers(Linux)[0] == Apt
  {
  }

  /** The three lists partition the seven managers: concatenated they are
      every manager exactly once. */
  lemma ListsPartitionManagers()
    ensures PkgManagers(Windows) + PkgManagers(MacOS) + PkgManagers(Linux) == AllPkgManagers()
    ensures |PkgManagers(Windows)| == 3 && |PkgManagers(MacOS)| == 1 && |PkgManagers(Linux)| == 3
  {
  }

  /** Each manager is listed under exactly one OS. */
  lemma ManagerListedOnce(p: PkgManager)
    ensures p in PkgManagers(GroupOf(p))
    ensures forall os :: os != GroupOf(p) ==> p !in PkgManagers(os)
  {
  }
}
