/** The runtime state of src/grug/grug_state.py: the table of game functions
    the host registers, the counter that hands out entity ids, and the
    checks `compile_grug_file` makes on a file's path before it hands the
    file's AST to an entity.  The compiled file itself (src/grug/grug_file.py)
    is the datatype `GrugFile`. */
module GrugStates {
  import opened Wrappers
  import opened CharClasses
  import opened Ast
  import opened GrugValues
  import GrugParser

  /** The errors `_get_file_entity_type`, `_check_custom_id_is_pascal` and
      `compile_grug_file` raise. */
  datatype StateError =
    /** ValueError: no `-`, or nothing after it (the same message covers an
        empty type between the `-` and the `.`). */
    | MissingEntityType(filename: string)
    /** ValueError: no `.` after the `-`. */
    | MissingPeriod(filename: string)
    /** ValueError: the type does not start with an uppercase letter. */
    | NotPascalCase(typeName: string)
    /** ValueError: the type holds `c`, which is no letter or digit. */
    | NotAlphanumeric(typeName: string, c: char)
    /** IndexError: `type_name[0]` of an empty type name. */
    | EmptyTypeName
    /** IndexError: `Path(path).parts[0]` of a path with no parts. */
    | NoPathParts(path: string)

  // ---------------------------------------------------------------------------
  // The entity type in a file name
  // ---------------------------------------------------------------------------

  /** `s.find(c, start)`: the first index at or after `start` holding `c`. */
  function Find(s: string, c: char, start: nat): (r: Option<nat>)
    decreases |s| - start
    ensures r.Some? ==> start <= r.value < |s| && s[r.value] == c
    ensures r.Some? ==> forall k :: start <= k < r.value ==> s[k] != c
    ensures r.None? ==> forall k :: start <= k < |s| ==> s[k] != c
  {
    if start >= |s| then None
    else if s[start] == c then Some(start)
    else Find(s, c, start + 1)
  }

  /** The characters a custom id type may hold. */
  predicate IdChar(c: char) {
    IsUpper(c) || IsLower(c) || IsDigit(c)
  }

  /** The first position at or after `k` whose character is not an id
      character. */
  function FirstNonIdChar(s: string, k: nat): (r: Option<nat>)
    decreases |s| - k
    ensures r.Some? ==> k <= r.value < |s| && !IdChar(s[r.value])
    ensures r.Some? ==> forall j :: k <= j < r.value ==> IdChar(s[j])
    ensures r.None? <==> forall j :: k <= j < |s| ==> IdChar(s[j])
  {
    if k >= |s| then None
    else if !IdChar(s[k]) then Some(k)
    else FirstNonIdChar(s, k + 1)
  }

  /** A custom id type in PascalCase: an uppercase letter first, then only
      letters and digits. */
  predicate IsPascal(t: string) {
    |t| > 0 && IsUpper(t[0]) && forall j :: 0 <= j < |t| ==> IdChar(t[j])
  }

  /** `_check_custom_id_is_pascal`: the first character must be uppercase,
      then every character is checked in order. */
  function CheckCustomIdIsPascal(t: string): (r: Result<(), StateError>)
    ensures r.Ok? <==> IsPascal(t)
    ensures t == [] ==> r == Err(EmptyTypeName)
    ensures t != [] && !IsUpper(t[0]) ==> r == Err(NotPascalCase(t))
    ensures r.Err? && r.error.NotAlphanumeric? ==>
      exists k :: 0 <= k < |t| && t[k] == r.error.c && !IdChar(t[k]) && forall j :: 0 <= j < k ==> IdChar(t[j])
  {
    if t == [] then Err(EmptyTypeName)
    else if !IsUpper(t[0]) then Err(NotPascalCase(t))
    else
      match FirstNonIdChar(t, 0)
      case Some(k) => Err(NotAlphanumeric(t, t[k]))
      case None => Ok(())
  }

  /** `_get_file_entity_type`: the text between the first `-` of the file
      name and the first `.` after it, which must be a PascalCase id. */
  function GetFileEntityType(filename: string): (r: Result<string, StateError>)
    ensures (forall k :: 0 <= k < |filename| ==> filename[k] != '-') ==> r == Err(MissingEntityType(filename))
    ensures |filename| > 0 && filename[|filename| - 1] == '-' && (forall k :: 0 <= k < |filename| - 1 ==> filename[k] != '-') ==>
      r == Err(MissingEntityType(filename))
    ensures r.Ok? ==> IsPascal(r.value)
  {
    match Find(filename, '-', 0)
    case None => Err(MissingEntityType(filename))
    case Some(dash) =>
      if dash + 1 >= |filename| then Err(MissingEntityType(filename))
      else
        match Find(filename, '.', dash + 1)
        case None => Err(MissingPeriod(filename))
        case Some(period) =>
          var entityType := filename[dash + 1..period];
          if |entityType| == 0 then Err(MissingEntityType(filename))
          else
            match CheckCustomIdIsPascal(entityType)
            case Err(e) => Err(e)
            case Ok(_) => Ok(entityType)
  }

  /** A file name `before-T.after` with no `-` before the dash and no `.` in
      `T`: the parts `_get_file_entity_type` looks for. */
  predicate NameSplitsAt(filename: string, before: string, t: string, after: string) {
    && filename == before + "-" + t + "." + after
    && (forall k :: 0 <= k < |before| ==> before[k] != '-')
    && (forall k :: 0 <= k < |t| ==> t[k] != '.')
  }

  /** An accepted file name splits around the type it yields. */
  lemma FileEntityTypeSplits(filename: string)
    requires GetFileEntityType(filename).Ok?
    ensures exists before, after :: NameSplitsAt(filename, before, GetFileEntityType(filename).value, after)
  {
    var dash := Find(filename, '-', 0).value;
    var period := Find(filename, '.', dash + 1).value;
    var t := filename[dash + 1..period];
    var before, after := filename[..dash], filename[period + 1..];
    assert filename == before + "-" + t + "." + after;
    assert NameSplitsAt(filename, before, t, after);
  }

  /** Conversely, the type between the first `-` and the next `.` is what
      comes out, when it is PascalCase. */
  lemma FileEntityTypeOfSplit(filename: string, before: string, t: string, after: string)
    requires NameSplitsAt(filename, before, t, after) && IsPascal(t)
    ensures GetFileEntityType(filename) == Ok(t)
  {
    var dash := |before|;
    assert filename[dash] == '-';
    assert forall k :: 0 <= k < dash ==> filename[k] == before[k];
    assert Find(filename, '-', 0) == Some(dash);
    var period := dash + 1 + |t|;
    assert filename[period] == '.';
    assert forall k :: dash + 1 <= k < period ==> filename[k] == t[k - dash - 1];
    assert Find(filename, '.', dash + 1) == Some(period);
    assert filename[dash + 1..period] == t;
  }

  /** `furnace-BlockEntity.grug` is a `BlockEntity`. */
  lemma FurnaceIsBlockEntity()
    ensures GetFileEntityType("furnace-BlockEntity.grug") == Ok("BlockEntity")
  {
    assert IsPascal("BlockEntity");
    FileEntityTypeOfSplit("furnace-BlockEntity.grug", "furnace", "BlockEntity", "grug");
  }

  /** A dash with no period after it is reported as a missing period. */
  lemma NoPeriodAfterDash(filename: string, dash: nat)
    requires dash + 1 < |filename| && filename[dash] == '-'
    requires forall k :: 0 <= k < dash ==> filename[k] != '-'
    requires forall k :: dash < k < |filename| ==> filename[k] != '.'
    ensures GetFileEntityType(filename) == Err(MissingPeriod(filename))
  {
    assert Find(filename, '-', 0) == Some(dash);
  }

  // ---------------------------------------------------------------------------
  // Paths
  // ---------------------------------------------------------------------------

  /** The pieces of `p` between the `/` separators, empty ones included. */
  function SplitSlash(p: string): (r: seq<string>)
    decreases |p|
    ensures |r| > 0
    ensures forall k :: 0 <= k < |r| ==> '/' !in r[k]
  {
    match Find(p, '/', 0)
    case None => [p]
    case Some(k) => [p[..k]] + SplitSlash(p[k + 1..])
  }

  function DropEmpty(pieces: seq<string>): (r: seq<string>)
    ensures forall k :: 0 <= k < |r| ==> r[k] != "" && r[k] != "."
    ensures forall k :: 0 <= k < |r| ==> r[k] in pieces
  {
    if pieces == [] then []
    else if pieces[0] == "" || pieces[0] == "." then DropEmpty(pieces[1..])
    else [pieces[0]] + DropEmpty(pieces[1..])
  }

  /** `PurePosixPath(p).parts`: the root `/` of an absolute path, then every
      non-empty component other than `.`. */
  function PathParts(p: string): (r: seq<string>)
    ensures forall k :: 0 <= k < |r| ==> r[k] != "" && r[k] != "."
    ensures forall k :: 0 <= k < |r| ==> r[k] == "/" || '/' !in r[k]
    ensures |p| > 0 && p[0] == '/' ==> |r| > 0 && r[0] == "/"
  {
    (if |p| > 0 && p[0] == '/' then ["/"] else []) + DropEmpty(SplitSlash(p))
  }

  /** `PurePosixPath(p).name`: the last part, unless that is the root. */
  function PathName(p: string): (r: string)
    ensures '/' !in r && r != "."
  {
    var parts := PathParts(p);
    if parts == [] || parts[|parts| - 1] == "/" then "" else parts[|parts| - 1]
  }

  /** The mod of `m/...` is `m`. */
  lemma ModIsFirstComponent(m: string, rest: string)
    requires m != "" && m != "." && '/' !in m
    ensures PathParts(m + "/" + rest) == [m] + DropEmpty(SplitSlash(rest))
  {
    var p := m + "/" + rest;
    assert p[|m|] == '/' && forall k :: 0 <= k < |m| ==> p[k] == m[k];
    assert Find(p, '/', 0) == Some(|m|);
    assert p[..|m|] == m && p[|m| + 1..] == rest;
  }

  // ---------------------------------------------------------------------------
  // The compiled file and the state
  // ---------------------------------------------------------------------------

  /** A global of the file: always a variable statement. */
  type GlobalStatement = s: Statement | s.VariableStatement? witness VariableStatement("", None, None, TrueExpr(NoResult))

  /** `[s for s in ast if isinstance(s, VariableStatement)]`. */
  function GlobalsOf(items: seq<AstItem>): (r: seq<GlobalStatement>)
    ensures |r| <= |items|
    ensures forall k :: 0 <= k < |r| ==> GlobalItem(r[k]) in items
    ensures forall k :: 0 <= k < |items| && items[k].GlobalItem? && items[k].global.VariableStatement? ==> items[k].global in r
  {
    if items == [] then []
    else
      var rest := GlobalsOf(items[1..]);
      assert forall k :: 1 <= k < |items| ==> items[k] == items[1..][k - 1];
      if items[0].GlobalItem? && items[0].global.VariableStatement? then [items[0].global] + rest else rest
  }

  /** The globals keep their file order: those of one part of the file come
      before those of the part after it. */
  lemma {:induction false} GlobalsOfAppend(a: seq<AstItem>, b: seq<AstItem>)
    ensures GlobalsOf(a + b) == GlobalsOf(a) + GlobalsOf(b)
  {
    if a == [] {
      assert a + b == b;
    } else {
      assert (a + b)[1..] == a[1..] + b;
      GlobalsOfAppend(a[1..], b);
    }
  }

  /** A compiled grug file (src/grug/grug_file.py).  Its `game_fns` is the
      state's own dictionary, so it is read through `state`. */
  datatype GrugFile = GrugFile(
    relativePath: string, mod: string,
    globalVariables: seq<GlobalStatement>,
    onFns: map<string, OnFn>, helperFns: map<string, HelperFn>,
    state: GrugState)

  class GrugState {
    /** What each game function the host registers does when called. */
    const gameCode: GameCode
    var gameFns: map<string, GameFn>
    var nextId: int

    constructor(gameCode: GameCode)
      ensures this.gameCode == gameCode
      ensures gameFns == map[] && nextId == 0
    {
      this.gameCode := gameCode;
      gameFns := map[];
      nextId := 0;
    }

    /** `register_game_fn`: the name now refers to `fn`, whatever it referred
        to before. */
    method RegisterGameFn(name: string, fn: GameFn)
      modifies this
      ensures gameFns == old(gameFns)[name := fn]
      ensures nextId == old(nextId)
    {
      gameFns := gameFns[name := fn];
    }

    /** The `game_fn` decorator: registers `fn` under its own name and hands
        it back unchanged. */
    method GameFnDecorator(fn: GameFn) returns (r: GameFn)
      modifies this
      ensures r == fn
      ensures gameFns == old(gameFns)[fn.name := fn] && fn.name in gameFns && gameFns[fn.name] == fn
      ensures nextId == old(nextId)
    {
      RegisterGameFn(fn.name, fn);
      return fn;
    }

    /** `compile_grug_file`, from the AST the frontend returns for the
        file's text: the mod is the first part of the path, the entity type
        comes from the file name, and the file shares this state's game
        functions. */
    function CompileGrugFile(relativePath: string, ast: seq<AstItem>): (r: Result<GrugFile, StateError>)
      ensures r.Ok? <==> PathParts(relativePath) != [] && GetFileEntityType(PathName(relativePath)).Ok?
      ensures PathParts(relativePath) == [] ==> r == Err(NoPathParts(relativePath))
      ensures PathParts(relativePath) != [] && GetFileEntityType(PathName(relativePath)).Err? ==>
        r == Err(GetFileEntityType(PathName(relativePath)).error)
      ensures r.Ok? ==> r.value.mod == PathParts(relativePath)[0] && r.value.relativePath == relativePath
      ensures r.Ok? ==> r.value.state == this
      ensures r.Ok? ==> r.value.onFns == GrugParser.OnFnTable(ast) && r.value.helperFns == GrugParser.HelperFnTable(ast)
      ensures r.Ok? ==> r.value.globalVariables == GlobalsOf(ast)
    {
      var parts := PathParts(relativePath);
      if parts == [] then Err(NoPathParts(relativePath))
      else
        match GetFileEntityType(PathName(relativePath))
        case Err(e) => Err(e)
        case Ok(_) =>
          Ok(GrugFile(relativePath, parts[0], GlobalsOf(ast), GrugParser.OnFnTable(ast), GrugParser.HelperFnTable(ast), this))
    }
  }
}
