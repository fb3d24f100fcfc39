/** The file system as the core sees it: what os.Stat says of a path and what
    os.ReadDir lists for a directory. Paths are strings joined with '/'. */
module Files {
  import opened Results
  import opened Strings

  /** One entry of an os.ReadDir listing. */
  datatype DirEntry = DirEntry(name: string, isDir: bool)

  /** A snapshot of the file system.
      - `present`: the paths os.Stat succeeds on;
      - `unreadable`: paths (not present) on which os.Stat fails with an error
        other than "does not exist", e.g. a permission error;
      - `listings`: for each directory os.ReadDir can read, its entries in
        the order os.ReadDir returns them (sorted by file name). */
  datatype FileSystem = FileSystem(
    present: set<string>,
    unreadable: set<string>,
    listings: map<string, seq<DirEntry>>)
  {
    /** `_, err := os.Stat(p); err == nil` */
    predicate StatOk(p: string)
    {
      p in present
    }

    /** `_, err := os.Stat(p); os.IsNotExist(err)` */
    predicate IsNotExist(p: string)
    {
      p !in present && p !in unreadable
    }

    /** os.ReadDir(p): the listing, or None for an error. */
    function ReadDir(p: string): Option<seq<DirEntry>>
    {
      if p in listings then Some(listings[p]) else None
    }
  }

  /** filepath.Join of two non-empty elements. */
  function PathJoin(dir: string, name: string): string
  {
    dir + "/" + name
  }

  /** filepath.Ext: the suffix of `p` from its last '.', provided no '/'
      follows that dot; "" when there is none. */
  function Ext(p: string): (e: string)
    ensures HasSuffix(p, e)
    ensures e == [] || e[0] == '.'
    ensures forall i :: 0 <= i < |e| ==> e[i] != '/'
    ensures forall i :: 1 <= i < |e| ==> e[i] != '.'
  {
    if p == [] || p[|p| - 1] == '/' then ""
    else if p[|p| - 1] == '.' then "."
    else
      var e := Ext(p[..|p| - 1]);
      if e == "" then "" else e + [p[|p| - 1]]
  }

  /** The extension of a name ending in '.' and a dot-free, slash-free word
      is that dot and word. */
  lemma {:induction false} ExtOfDotted(stem: string, w: string)
    requires '.' !in w && '/' !in w
    ensures Ext(stem + "." + w) == "." + w
    decreases |w|
  {
    var p := stem + "." + w;
    if w != [] {
      var w' := w[..|w| - 1];
      assert p[..|p| - 1] == stem + "." + w';
      assert w[|w| - 1] in w;
      ExtOfDotted(stem, w');
      assert "." + w' + [w[|w| - 1]] == "." + w;
    }
  }

  /** filepath.Ext(name) == ".toml" says exactly that the name ends in ".toml". */
  lemma ExtToml(name: string)
    ensures Ext(name) == ".toml" <==> HasSuffix(name, ".toml")
  {
    if HasSuffix(name, ".toml") {
      var stem := name[..|name| - 5];
      assert name == stem + "." + "toml";
      ExtOfDotted(stem, "toml");
    }
  }
}
