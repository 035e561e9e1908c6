/** A package of game functions (src/grug/grug_package.py): the functions
    and the prefix their names get when they are registered. */
module GrugPackages {
  import opened Wrappers
  import opened GrugValues

  /** The ValueError `__post_init__` raises. */
  datatype PackageError = EmptyPrefix

  /** `__post_init__`: a package must be created with a non-empty prefix. */
  function PostInit(prefix: string): (r: Result<(), PackageError>)
    ensures r.Ok? <==> |prefix| > 0
    ensures r.Err? ==> r.error == EmptyPrefix
  {
    if prefix == "" then Err(EmptyPrefix) else Ok(())
  }

  class GrugPackage {
    var prefix: string
    var gameFns: seq<GameFn>

    /** The `__init__` the dataclass generates, before `__post_init__`. */
    constructor Init(prefix: string, gameFns: seq<GameFn>)
      ensures this.prefix == prefix && this.gameFns == gameFns
    {
      this.prefix := prefix;
      this.gameFns := gameFns;
    }

    /** `noprefix`: the package's functions are registered under their own
        names; the package itself is returned. */
    method Noprefix() returns (r: GrugPackage)
      modifies this
      ensures r == this
      ensures prefix == "" && gameFns == old(gameFns)
    {
      prefix := "";
      return this;
    }
  }

  /** `GrugPackage(prefix=..., game_fns=...)`: the generated `__init__`, then
      `__post_init__`, which rejects an empty prefix. */
  method NewGrugPackage(prefix: string, gameFns: seq<GameFn>) returns (r: Result<GrugPackage, PackageError>)
    ensures r.Err? <==> prefix == ""
    ensures r.Err? ==> r.error == EmptyPrefix
    ensures r.Ok? ==> fresh(r.value) && r.value.prefix == prefix && r.value.gameFns == gameFns
  {
    var p := new GrugPackage.Init(prefix, gameFns);
    match PostInit(prefix)
    case Err(e) => return Err(e);
    case Ok(_) => return Ok(p);
  }

  /** The only way to a package with an empty prefix: create one with a
      non-empty prefix, then call `noprefix`. */
  method PackageWithoutPrefix(prefix: string, gameFns: seq<GameFn>) returns (r: Result<GrugPackage, PackageError>)
    ensures r.Ok? <==> prefix != ""
    ensures r.Ok? ==> r.value.prefix == "" && r.value.gameFns == gameFns
  {
    r := NewGrugPackage(prefix, gameFns);
    if r.Ok? {
      var p := r.value.Noprefix();
      r := Ok(p);
    }
  }
}
