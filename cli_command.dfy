/**
 * The wakatime-cli argument list that Heartbeat.toCliCommands builds: a fixed prefix
 * (executable, --entity, --plugin) followed by optional flags in a fixed order, each
 * valued flag immediately followed by its value. Decode reads such a list back, so the
 * round trip Decode(Encode(a)) == Some(a) says that every flag appears exactly when its
 * field asks for it, in order, with its value right after it.
 */
module CliCommand {
  import opened Wrappers

  /** What a command line says, flag by flag. Switch flags are booleans. */
  datatype CliArgs = CliArgs(
    cli: string,
    entity: string,
    plugin: string,
    project: Option<string>,
    write: bool,
    unsavedEntity: bool,
    projectFolder: Option<string>,
    building: bool,
    alternateLanguage: Option<string>,
    cursorPos: Option<string>,
    lineNo: Option<string>,
    linesInFile: Option<string>,
    verbose: bool)

  /** One optional flag's occurrence; a switch that is present carries the value "". */
  datatype Opt = Absent | Present(value: string)

  /** The number of optional flags. */
  const FlagCount: nat := 10

  /** The optional flags' names, in the order they are appended. */
  function FlagName(k: nat): string
    requires k < FlagCount
  {
    if k == 0 then "--project"
    else if k == 1 then "--write"
    else if k == 2 then "--is-unsaved-entity"
    else if k == 3 then "--project-folder"
    else if k == 4 then "--category"
    else if k == 5 then "--alternate-language"
    else if k == 6 then "--cursorpos"
    else if k == 7 then "--lineno"
    else if k == 8 then "--lines-in-file"
    else "--verbose"
  }

  /** Whether a value follows flag k; the others are switches. */
  predicate Valued(k: nat)
    requires k < FlagCount
  {
    k != 1 && k != 2 && k != 9
  }

  lemma FlagNamesDistinct(j: nat, k: nat)
    requires j < FlagCount && k < FlagCount && j != k
    ensures FlagName(j) != FlagName(k)
  {
    assert |FlagName(2)| == 19 && |FlagName(5)| == 20;
    if |FlagName(j)| == |FlagName(k)| {
      assert FlagName(j)[3] != FlagName(k)[3] || FlagName(j)[4] != FlagName(k)[4];
    }
  }

  function OptOf(v: Option<string>): Opt {
    if v.Some? then Present(v.value) else Absent
  }

  function SwitchOf(on: bool): Opt {
    if on then Present("") else Absent
  }

  function ValueOf(o: Opt): Option<string> {
    if o.Present? then Some(o.value) else None
  }

  /** What a CliArgs value says about optional flag k. */
  function OptAt(a: CliArgs, k: nat): (o: Opt)
    requires k < FlagCount
    ensures !Valued(k) && o.Present? ==> o.value == ""
  {
    if k == 0 then OptOf(a.project)
    else if k == 1 then SwitchOf(a.write)
    else if k == 2 then SwitchOf(a.unsavedEntity)
    else if k == 3 then OptOf(a.projectFolder)
    else if k == 4 then (if a.building then Present("building") else Absent)
    else if k == 5 then OptOf(a.alternateLanguage)
    else if k == 6 then OptOf(a.cursorPos)
    else if k == 7 then OptOf(a.lineNo)
    else if k == 8 then OptOf(a.linesInFile)
    else SwitchOf(a.verbose)
  }

  /** The arguments flag k contributes: nothing, the flag, or the flag and its value. */
  function Segment(k: nat, o: Opt): seq<string>
    requires k < FlagCount
  {
    match o
    case Absent => []
    case Present(v) => if Valued(k) then [FlagName(k), v] else [FlagName(k)]
  }

  /** The arguments of flags k, k+1, ..., in order. */
  function Tail(a: CliArgs, k: nat): seq<string>
    requires k <= FlagCount
    decreases FlagCount - k
  {
    if k == FlagCount then [] else Segment(k, OptAt(a, k)) + Tail(a, k + 1)
  }

  function Prefix(a: CliArgs): seq<string> {
    [a.cli, "--entity", a.entity, "--plugin", a.plugin]
  }

  /** The argument list for a CliArgs value: the fixed prefix, then the optional flags in order. */
  function Encode(a: CliArgs): (c: seq<string>)
    ensures |c| >= 5 && c[..5] == Prefix(a)
  {
    Prefix(a) + Tail(a, 0)
  }

  /** Appending flag k's arguments to what precedes them leaves Tail(a, k + 1) to come. */
  lemma EncodeStep(a: CliArgs, k: nat, before: seq<string>, after: seq<string>)
    requires k < FlagCount
    requires before + Tail(a, k) == Encode(a)
    requires after == before + Segment(k, OptAt(a, k))
    ensures after + Tail(a, k + 1) == Encode(a)
  {
    var seg := Segment(k, OptAt(a, k));
    var rest := Tail(a, k + 1);
    assert Tail(a, k) == seg + rest;
    AppendAssoc(before, seg, rest);
  }

  /**
   * One step of building the list: appends flag k's name, followed by its value when it
   * takes one, when the flag is present, and nothing when it is absent.
   */
  method AppendFlag(cmds: seq<string>, a: CliArgs, k: nat) returns (r: seq<string>)
    requires k < FlagCount
    requires cmds + Tail(a, k) == Encode(a)
    ensures r == cmds + Segment(k, OptAt(a, k))
    ensures r + Tail(a, k + 1) == Encode(a)
  {
    var o := OptAt(a, k);
    if o.Absent? {
      r := cmds;
    } else if Valued(k) {
      r := cmds + [FlagName(k), o.value];
    } else {
      r := cmds + [FlagName(k)];
    }
    EncodeStep(a, k, cmds, r);
  }

  /** Once every flag has been appended, the list is Encode's. */
  lemma EncodeDone(a: CliArgs, c: seq<string>)
    requires c + Tail(a, FlagCount) == Encode(a)
    ensures c == Encode(a)
  {
    assert c + Tail(a, FlagCount) == c;
  }

  lemma AppendAssoc<T>(x: seq<T>, y: seq<T>, z: seq<T>)
    ensures (x + y) + z == x + (y + z)
  {
  }

  /** Each flag's arguments, spelled out. */
  lemma Segments(a: CliArgs)
    ensures Segment(0, OptAt(a, 0)) == (if a.project.Some? then [FlagName(0), a.project.value] else [])
    ensures Segment(1, OptAt(a, 1)) == (if a.write then [FlagName(1)] else [])
    ensures Segment(2, OptAt(a, 2)) == (if a.unsavedEntity then [FlagName(2)] else [])
    ensures Segment(3, OptAt(a, 3)) == (if a.projectFolder.Some? then [FlagName(3), a.projectFolder.value] else [])
    ensures Segment(4, OptAt(a, 4)) == (if a.building then [FlagName(4), "building"] else [])
    ensures Segment(5, OptAt(a, 5)) == (if a.alternateLanguage.Some? then [FlagName(5), a.alternateLanguage.value] else [])
    ensures Segment(6, OptAt(a, 6)) == (if a.cursorPos.Some? then [FlagName(6), a.cursorPos.value] else [])
    ensures Segment(7, OptAt(a, 7)) == (if a.lineNo.Some? then [FlagName(7), a.lineNo.value] else [])
    ensures Segment(8, OptAt(a, 8)) == (if a.linesInFile.Some? then [FlagName(8), a.linesInFile.value] else [])
    ensures Segment(9, OptAt(a, 9)) == (if a.verbose then [FlagName(9)] else [])
  {
  }

  /** With --verbose requested, the arguments of flags k, ..., 9 end with it. */
  lemma {:induction false} VerboseEndsTail(a: CliArgs, k: nat)
    requires a.verbose && k < FlagCount
    ensures |Tail(a, k)| > 0 && Tail(a, k)[|Tail(a, k)| - 1] == "--verbose"
    decreases FlagCount - k
  {
    if k < FlagCount - 1 {
      VerboseEndsTail(a, k + 1);
      assert Tail(a, k) == Segment(k, OptAt(a, k)) + Tail(a, k + 1);
    } else {
      assert Tail(a, k) == ["--verbose"] + Tail(a, k + 1);
    }
  }

  function Cons(o: Opt, r: Option<seq<Opt>>): Option<seq<Opt>> {
    if r.Some? then Some([o] + r.value) else None
  }

  /**
   * Reads flags k, k+1, ... in order; a flag missing its value, or anything left
   * over at the end, is an error.
   */
  function DecodeFrom(c: seq<string>, k: nat): (r: Option<seq<Opt>>)
    requires k <= FlagCount
    ensures r.Some? ==> |r.value| == FlagCount - k
    decreases FlagCount - k
  {
    if k == FlagCount then (if c == [] then Some([]) else None)
    else if c != [] && c[0] == FlagName(k) then
      if Valued(k) then
        if |c| >= 2 then Cons(Present(c[1]), DecodeFrom(c[2..], k + 1)) else None
      else Cons(Present(""), DecodeFrom(c[1..], k + 1))
    else Cons(Absent, DecodeFrom(c, k + 1))
  }

  /** What a CliArgs value says about flags k, k+1, ... */
  function OptsFrom(a: CliArgs, k: nat): (r: seq<Opt>)
    requires k <= FlagCount
    ensures |r| == FlagCount - k
  {
    seq(FlagCount - k, i requires 0 <= i < FlagCount - k => OptAt(a, k + i))
  }

  lemma OptsFromStep(a: CliArgs, k: nat)
    requires k < FlagCount
    ensures OptsFrom(a, k) == [OptAt(a, k)] + OptsFrom(a, k + 1)
  {
    var o := OptsFrom(a, k);
    var o' := [OptAt(a, k)] + OptsFrom(a, k + 1);
    assert forall i :: 0 <= i < |o| ==> o[i] == o'[i];
  }

  /** The arguments of later flags never start with the name of an earlier one. */
  lemma {:induction false} TailAvoids(a: CliArgs, j: nat, k: nat)
    requires k < j <= FlagCount
    ensures Tail(a, j) == [] || Tail(a, j)[0] != FlagName(k)
    decreases FlagCount - j
  {
    if j < FlagCount {
      if OptAt(a, j).Absent? {
        TailAvoids(a, j + 1, k);
      } else {
        FlagNamesDistinct(j, k);
      }
    }
  }

  lemma {:induction false} DecodeTail(a: CliArgs, k: nat)
    requires k <= FlagCount
    ensures DecodeFrom(Tail(a, k), k) == Some(OptsFrom(a, k))
    decreases FlagCount - k
  {
    if k < FlagCount {
      DecodeTail(a, k + 1);
      OptsFromStep(a, k);
      match OptAt(a, k)
      case Absent =>
        TailAvoids(a, k + 1, k);
        DecodeAbsent(a, k);
      case Present(v) =>
        DecodePresent(a, k, v);
    }
  }

  /** An absent flag contributes nothing, and the reader moves on to the next flag. */
  lemma DecodeAbsent(a: CliArgs, k: nat)
    requires k < FlagCount && OptAt(a, k).Absent?
    requires Tail(a, k + 1) == [] || Tail(a, k + 1)[0] != FlagName(k)
    ensures DecodeFrom(Tail(a, k), k) == Cons(Absent, DecodeFrom(Tail(a, k + 1), k + 1))
  {
    assert Tail(a, k) == Tail(a, k + 1);
  }

  /** A present flag is read with its value, and the reader moves on to the next flag. */
  lemma DecodePresent(a: CliArgs, k: nat, v: string)
    requires k < FlagCount && OptAt(a, k) == Present(v)
    ensures DecodeFrom(Tail(a, k), k) == Cons(Present(v), DecodeFrom(Tail(a, k + 1), k + 1))
  {
    var rest := Tail(a, k + 1);
    var c := Tail(a, k);
    if Valued(k) {
      assert c == [FlagName(k), v] + rest;
      assert c[0] == FlagName(k) && c[1] == v && c[2..] == rest;
    } else {
      assert c == [FlagName(k)] + rest;
      assert c[0] == FlagName(k) && c[1..] == rest;
    }
  }

  function FromOpts(cli: string, entity: string, plugin: string, o: seq<Opt>): Option<CliArgs>
    requires |o| == FlagCount
  {
    if o[4].Present? && o[4].value != "building" then None
    else Some(CliArgs(cli, entity, plugin, ValueOf(o[0]), o[1].Present?, o[2].Present?, ValueOf(o[3]),
                      o[4].Present?, ValueOf(o[5]), ValueOf(o[6]), ValueOf(o[7]), ValueOf(o[8]),
                      o[9].Present?))
  }

  /** Reads an argument list back into what it says; None when it is not of the expected shape. */
  function Decode(c: seq<string>): Option<CliArgs> {
    if |c| < 5 || c[1] != "--entity" || c[3] != "--plugin" then None
    else
      var o := DecodeFrom(c[5..], 0);
      if o.None? then None else FromOpts(c[0], c[2], c[4], o.value)
  }

  lemma FromOptsFrom(a: CliArgs)
    ensures FromOpts(a.cli, a.entity, a.plugin, OptsFrom(a, 0)) == Some(a)
  {
    var o := OptsFrom(a, 0);
    assert ValueOf(o[0]) == a.project && o[1].Present? == a.write && o[2].Present? == a.unsavedEntity;
    assert ValueOf(o[3]) == a.projectFolder && o[4].Present? == a.building;
    assert ValueOf(o[5]) == a.alternateLanguage && ValueOf(o[6]) == a.cursorPos;
    assert ValueOf(o[7]) == a.lineNo && ValueOf(o[8]) == a.linesInFile && o[9].Present? == a.verbose;
  }

  /** Every argument list Encode builds decodes back to the arguments it was built from. */
  lemma {:induction false} DecodeEncode(a: CliArgs)
    ensures Decode(Encode(a)) == Some(a)
  {
    var c := Encode(a);
    DecodeTail(a, 0);
    assert c[..5] == Prefix(a);
    assert c[0] == a.cli && c[1] == "--entity" && c[2] == a.entity && c[3] == "--plugin" && c[4] == a.plugin;
    assert c[5..] == Tail(a, 0);
    FromOptsFrom(a);
  }

  /** With --verbose requested it is the last argument. */
  lemma VerboseIsLast(a: CliArgs)
    requires a.verbose
    ensures Encode(a)[|Encode(a)| - 1] == "--verbose"
  {
    VerboseEndsTail(a, 0);
  }
}
