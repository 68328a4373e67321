/** The closed enumerations and the catalog records (src/lib/types.ts). */
module Types {
  import opened Seqs

  /** The three supported operating systems. */
  datatype OS = Windows | MacOS | Linux

  /** The seven package-manager keys, the union of the three per-OS groups. */
  datatype PkgManager = Choco | Winget | Scoop | Homebrew | Apt | Dnf | Pacman

  /** The `WindowsPkg`, `MacPkg` and `LinuxPkg` groups: which OS a manager
      belongs to. */
  function GroupOf(p: PkgManager): OS {
    match p
    case Choco | Winget | Scoop => Windows
    case Homebrew => MacOS
    case Apt | Dnf | Pacman => Linux
  }

  /** Every value of `OS`, in declaration order. */
  function AllOS(): (r: seq<OS>)
    ensures |r| == 3 && NoDuplicates(r)
    ensures forall os :: os in r
  {
    var r := [Windows, MacOS, Linux];
    assert forall os :: os in r by {
      forall os ensures os in r {
        if os == Windows { assert r[0] == os; }
        else if os == MacOS { assert r[1] == os; }
        else { assert r[2] == os; }
      }
    }
    r
  }

  /** Every value of `PkgManager`, group by group. */
  function AllPkgManagers(): (r: seq<PkgManager>)
    ensures |r| == 7 && NoDuplicates(r)
    ensures forall p :: p in r
  {
    var r := [Choco, Winget, Scoop, Homebrew, Apt, Dnf, Pacman];
    assert forall p :: p in r by {
      forall p ensures p in r {
        if p == Choco { assert r[0] == p; }
        else if p == Winget { assert r[1] == p; }
        else if p == Scoop { assert r[2] == p; }
        else if p == Homebrew { assert r[3] == p; }
        else if p == Apt { assert r[4] == p; }
        else if p == Dnf { assert r[5] == p; }
        else { assert r[6] == p; }
      }
    }
    r
  }

  /** A catalog entry. `install` is a partial map: a key may be absent, and
      an absent key is distinct from a key bound to the empty string. */
  datatype Tool = Tool(name: string, iconsrc: string, install: map<PkgManager, string>)

  /** A display label and its ordered tools. Neither labels nor tool names
      are required to be unique. */
  datatype ToolCategory = ToolCategory(category: string, tools: seq<Tool>)

  /** All tools of a catalog, category by category, each category in its own
      order. */
  function AllTools(data: seq<ToolCategory>): (r: seq<Tool>)
    ensures forall t :: t in r <==> exists c :: c in data && t in c.tools
  {
    if data == [] then [] else data[0].tools + AllTools(data[1..])
  }
}
