/**
 * Heartbeat.java: one activity event and the rules about it. Editor, document and
 * workspace are abstract inputs: the editor is reduced to the objects the code asks it
 * for (each of which may be null), and the workspace to its projects in order.
 */
module Heartbeats {
  import opened Wrappers
  import opened JavaStrings
  import opened CliCommand

  /** An IProject: its name and the path of its location URI, either of which may be null. */
  datatype Project = Project(name: Option<string>, location: Option<string>, isOpen: bool)

  /**
   * The editor input as setProject sees it: the project of its file when it is a
   * FileEditorInput, its IProject adapter, and the project of its IResource adapter.
   */
  datatype EditorInput = EditorInput(
    fileProject: Option<Project>,
    projectAdapter: Option<Project>,
    resourceProject: Option<Project>)

  /** An IDocument: getNumberOfLines, and getLineOffset(line) for 0 <= line < |lineOffsets|. */
  datatype Document = Document(numberOfLines: int32, lineOffsets: seq<int32>)

  /** The ITextSelection's start line and offset. */
  datatype Selection = Selection(startLine: int32, offset: int32)

  /**
   * An IEditorPart. `document` is None when there is no text editor adapter, no
   * document provider or no document; `selection` is None when there is no site,
   * no selection provider or no selection.
   */
  datatype Editor = Editor(input: Option<EditorInput>, document: Option<Document>, selection: Option<Selection>)

  datatype Heartbeat = Heartbeat(
    entity: string,
    entityType: string,
    timestamp: int,
    isWrite: bool,
    project: Option<Project>,
    lineCount: Option<int32>,
    lineNumber: Option<int32>,
    cursorPosition: Option<int32>,
    alternateLanguage: Option<string>,
    isBuilding: bool,
    isUnsavedFile: bool)

  /** What toCliCommands reads from the plugin: the CLI location and the IDE and plugin versions. */
  datatype PluginInfo = PluginInfo(cliLocation: string, ideName: string, eclipseVersion: string, version: string)

  // ------------------------------------------------------------ rate limit

  /** FREQUENCY, 2 * 60. */
  const Frequency: int := 2 * 60

  /** The throttle window canSend and the listeners use: FREQUENCY * 60 seconds. */
  const ThrottleWindow: int := Frequency * 60

  /**
   * canSend: a write always goes; any other heartbeat goes when the throttle window has
   * passed since the last one sent, or when it is about a different entity.
   */
  function CanSend(hb: Heartbeat, lastFile: Option<string>, lastTime: int, window: int): (ok: bool)
    ensures hb.isWrite ==> ok
    ensures !hb.isWrite ==> (ok <==> lastTime + window < hb.timestamp || lastFile != Some(hb.entity))
  {
    if hb.isWrite then true
    else if lastTime + window < hb.timestamp then true
    else lastFile != Some(hb.entity)
  }

  /** The throttle the editor, caret and mouse listeners write out inline. */
  function ListenerThrottle(currentFile: string, currentTime: int, lastFile: Option<string>,
                            lastTime: int, window: int): bool
  {
    Some(currentFile) != lastFile || lastTime + window < currentTime
  }

  /** The listeners' inline throttle is canSend for a heartbeat that is not a write. */
  lemma ListenerThrottleIsCanSend(hb: Heartbeat, lastFile: Option<string>, lastTime: int, window: int)
    requires !hb.isWrite
    ensures ListenerThrottle(hb.entity, hb.timestamp, lastFile, lastTime, window)
            == CanSend(hb, lastFile, lastTime, window)
  {
  }

  // ------------------------------------------------------------ file path

  predicate IsSlash(c: char) {
    c == '/' || c == '\\'
  }

  /** The path matches ^[\\/]([A-Z]:[\\/]): a slash before a Windows drive letter. */
  predicate HasSlashBeforeDrive(p: string) {
    |p| >= 4 && IsSlash(p[0]) && 'A' <= p[1] <= 'Z' && p[2] == ':' && IsSlash(p[3])
  }

  /** fixFilePath: drops the slash in front of a drive letter, and only that. */
  function FixFilePath(p: string): (r: string)
    ensures HasSlashBeforeDrive(p) ==> r == p[1..]
    ensures !HasSlashBeforeDrive(p) ==> r == p
    ensures !HasSlashBeforeDrive(r)
  {
    if HasSlashBeforeDrive(p) then p[1..] else p
  }

  lemma FixFilePathIdempotent(p: string)
    ensures FixFilePath(FixFilePath(p)) == FixFilePath(p)
  {
  }

  // ------------------------------------------------------------ cursor and line

  /** All the objects setFileMetadata needs for the cursor exist, and the numbers are usable. */
  predicate CursorKnown(e: Editor) {
    && e.input.Some? && e.document.Some? && e.selection.Some?
    && var doc, sel := e.document.value, e.selection.value;
       && sel.startLine >= 0 && sel.offset >= 0
       && (sel.startLine as int) < |doc.lineOffsets|
       && Wrap32(sel.offset as int - doc.lineOffsets[sel.startLine] as int) >= 0
  }

  /** Java's offset - getLineOffset(line), as an int. */
  function Column(e: Editor): int32
    requires CursorKnown(e)
  {
    Wrap32(e.selection.value.offset as int - e.document.value.lineOffsets[e.selection.value.startLine] as int)
  }

  /** What setFileMetadata leaves in hb' when it starts from hb. */
  ghost predicate MetadataFrom(hb: Heartbeat, e: Editor, hb': Heartbeat) {
    && hb' == hb.(lineCount := hb'.lineCount, lineNumber := hb'.lineNumber, cursorPosition := hb'.cursorPosition)
    && hb'.lineCount == (if e.input.Some? && e.document.Some? then Some(e.document.value.numberOfLines) else hb.lineCount)
    && (CursorKnown(e) ==>
          && hb'.lineNumber == Some(Wrap32(e.selection.value.startLine as int + 1))
          && hb'.cursorPosition == Some(Wrap32(Column(e) as int + 1)))
    && (!CursorKnown(e) ==> hb'.lineNumber == hb.lineNumber && hb'.cursorPosition == hb.cursorPosition)
  }

  /**
   * setFileMetadata: the line count once the document is known; line number and cursor
   * position, both 1-based, together and only when line, offset and their column are all
   * non-negative and the line has an offset (getLineOffset throws otherwise).
   */
  method SetFileMetadata(hb: Heartbeat, e: Editor) returns (hb': Heartbeat)
    ensures MetadataFrom(hb, e, hb')
    ensures CursorKnown(e) ==>
      && (hb'.lineNumber.value >= 1 <==> e.selection.value.startLine < 0x7fff_ffff)
      && (hb'.cursorPosition.value >= 1 <==> Column(e) < 0x7fff_ffff)
      && (e.selection.value.startLine < 0x7fff_ffff ==> hb'.lineNumber.value as int == e.selection.value.startLine as int + 1)
      && (Column(e) < 0x7fff_ffff ==>
            hb'.cursorPosition.value as int
            == e.selection.value.offset as int - e.document.value.lineOffsets[e.selection.value.startLine] as int + 1)
  {
    hb' := hb;
    if e.input.None? || e.document.None? {
      return;
    }
    var document := e.document.value;
    hb' := hb'.(lineCount := Some(document.numberOfLines));
    if e.selection.None? {
      return;
    }
    var line := e.selection.value.startLine;
    if line < 0 {
      return;
    }
    var offset := e.selection.value.offset;
    if offset < 0 {
      return;
    }
    if line as int >= |document.lineOffsets| {
      return;  // BadLocationException, logged
    }
    var cursor := Wrap32(offset as int - document.lineOffsets[line] as int);
    if cursor < 0 {
      return;
    }
    hb' := hb'.(cursorPosition := Some(Wrap32(cursor as int + 1)), lineNumber := Some(Wrap32(line as int + 1)));
  }

  // ------------------------------------------------------------ project

  /** A project reference that is not null and has a name. */
  predicate Named(p: Option<Project>) {
    p.Some? && p.value.name.Some?
  }

  /** The first open project of the workspace, or None when no project is open. */
  ghost predicate IsFirstOpen(p: Option<Project>, workspace: seq<Project>) {
    if p.None? then forall i :: 0 <= i < |workspace| ==> !workspace[i].isOpen
    else exists i :: 0 <= i < |workspace| && workspace[i] == p.value && workspace[i].isOpen
                     && forall j :: 0 <= j < i ==> !workspace[j].isOpen
  }

  /** setDefaultProject's choice: the plugin's last project, else the first open one. */
  ghost predicate DefaultChoice(p: Option<Project>, lastProject: Option<Project>, workspace: seq<Project>) {
    if lastProject.Some? then p == lastProject else IsFirstOpen(p, workspace)
  }

  /**
   * setProject's choice and the plugin's lastProject afterwards: the FileEditorInput's
   * project, then the IProject adapter, then the IResource adapter's project, each taken
   * only when it has a name and then remembered as lastProject; otherwise the default,
   * with lastProject left alone.
   */
  ghost predicate ProjectChoice(e: Option<Editor>, lastProject: Option<Project>, workspace: seq<Project>,
                                p: Option<Project>, lastProject': Option<Project>) {
    if e.None? || e.value.input.None? then DefaultChoice(p, lastProject, workspace) && lastProject' == lastProject
    else
      var input := e.value.input.value;
      if Named(input.fileProject) then p == input.fileProject && lastProject' == p
      else if Named(input.projectAdapter) then p == input.projectAdapter && lastProject' == p
      else if Named(input.resourceProject) then p == input.resourceProject && lastProject' == p
      else DefaultChoice(p, lastProject, workspace) && lastProject' == lastProject
  }

  /** setDefaultProject, with its loop over the workspace's projects. */
  method DefaultProject(lastProject: Option<Project>, workspace: seq<Project>) returns (p: Option<Project>)
    ensures DefaultChoice(p, lastProject, workspace)
    ensures lastProject.Some? ==> p == lastProject
    ensures lastProject.None? && p.Some? ==> p.value.isOpen && p.value in workspace
    ensures lastProject.None? && p.None? ==> forall i :: 0 <= i < |workspace| ==> !workspace[i].isOpen
  {
    if lastProject.Some? {
      return lastProject;
    }
    var i := 0;
    while i < |workspace|
      invariant 0 <= i <= |workspace|
      invariant forall j :: 0 <= j < i ==> !workspace[j].isOpen
    {
      if workspace[i].isOpen {
        return Some(workspace[i]);
      }
      i := i + 1;
    }
    return None;
  }

  /** setProject: returns the heartbeat's project and the plugin's lastProject afterwards. */
  method SetProject(e: Option<Editor>, lastProject: Option<Project>, workspace: seq<Project>)
    returns (p: Option<Project>, lastProject': Option<Project>)
    ensures ProjectChoice(e, lastProject, workspace, p, lastProject')
    ensures p.Some? && p != lastProject ==> p.value.isOpen || p.value.name.Some?
  {
    if e.None? || e.value.input.None? {
      p := DefaultProject(lastProject, workspace);
      return p, lastProject;
    }
    var input := e.value.input.value;
    if Named(input.fileProject) {
      return input.fileProject, input.fileProject;
    }
    if Named(input.projectAdapter) {
      return input.projectAdapter, input.projectAdapter;
    }
    if !Named(input.resourceProject) {
      p := DefaultProject(lastProject, workspace);
      return p, lastProject;
    }
    return input.resourceProject, input.resourceProject;
  }

  // ------------------------------------------------------------ construction

  /**
   * The Heartbeat constructor. The clock is the parameter nowMillis. The editor may be
   * null only for a database entity: for a file entity setFileMetadata dereferences it.
   * Returns the plugin's lastProject afterwards as well.
   */
  method NewHeartbeat(entity: string, isWrite: bool, e: Option<Editor>, isDatabase: bool,
                      nowMillis: nat, lastProject: Option<Project>, workspace: seq<Project>)
    returns (hb: Heartbeat, lastProject': Option<Project>)
    requires e.Some? || isDatabase
    ensures hb.entityType == "file" && hb.timestamp == nowMillis / 1000 && hb.isWrite == isWrite
    ensures !hb.isBuilding && hb.isUnsavedFile == isDatabase && hb.alternateLanguage.None?
    ensures ProjectChoice(e, lastProject, workspace, hb.project, lastProject')
    ensures isDatabase ==> hb.entity == entity && hb.lineCount.None? && hb.lineNumber.None? && hb.cursorPosition.None?
    ensures !isDatabase ==>
      && hb.entity == FixFilePath(entity)
      && MetadataFrom(hb.(lineCount := None, lineNumber := None, cursorPosition := None), e.value, hb)
  {
    var project;
    project, lastProject' := SetProject(e, lastProject, workspace);
    hb := Heartbeat(entity, "file", nowMillis / 1000, isWrite, project, None, None, None, None, false, isDatabase);
    if !isDatabase {
      hb := hb.(entity := FixFilePath(hb.entity));
      hb := SetFileMetadata(hb, e.value);
    }
  }

  // ------------------------------------------------------------ command line

  function PluginName(info: PluginInfo): string {
    info.ideName + "/" + info.eclipseVersion + " eclipse-wakatime/" + info.version
  }

  /** getProjectFolder: the path of the project's location, when both exist. */
  function ProjectFolder(hb: Heartbeat): (r: Option<string>)
    ensures r.Some? ==> hb.project.Some? && hb.project.value.location == r
    ensures hb.project.None? ==> r.None?
    ensures hb.project.Some? ==> r == hb.project.value.location
  {
    if hb.project.None? then None else hb.project.value.location
  }

  function ProjectName(hb: Heartbeat): Option<string> {
    if Named(hb.project) then hb.project.value.name else None
  }

  function IntText(n: Option<int32>): Option<string> {
    if n.Some? then Some(IntToString(n.value as int)) else None
  }

  /** What the command line for hb asks of wakatime-cli, field by field. */
  function ArgsOf(hb: Heartbeat, info: PluginInfo, debug: bool): CliArgs {
    CliArgs(info.cliLocation, hb.entity, PluginName(info), ProjectName(hb), hb.isWrite, hb.isUnsavedFile,
            ProjectFolder(hb), hb.isBuilding, hb.alternateLanguage, IntText(hb.cursorPosition),
            IntText(hb.lineNumber), IntText(hb.lineCount), debug)
  }

  /**
   * toCliCommands. ArgsOf gathers what each of the method's conditions tests; the flags
   * are then appended one by one in the method's order (k counts those appended so far).
   * The list starts with the CLI, --entity and --plugin; it reads back (Decode) as exactly
   * the heartbeat's fields, so each optional flag is there iff its condition holds, in the
   * fixed order, valued flags followed by their value; with DEBUG, --verbose is last.
   */
  method ToCliCommands(hb: Heartbeat, info: PluginInfo, debug: bool) returns (cmds: seq<string>)
    ensures |cmds| >= 5 && cmds[..5] == [info.cliLocation, "--entity", hb.entity, "--plugin", PluginName(info)]
    ensures cmds == Encode(ArgsOf(hb, info, debug))
    ensures Decode(cmds) == Some(ArgsOf(hb, info, debug))
    ensures debug ==> cmds[|cmds| - 1] == "--verbose"
  {
    var a := ArgsOf(hb, info, debug);
    cmds := Prefix(a);
    assert cmds + Tail(a, 0) == Encode(a);
    var k := 0;
    cmds := AppendFlag(cmds, a, k);
    k := k + 1;
    cmds := AppendFlag(cmds, a, k);
    k := k + 1;
    cmds := AppendFlag(cmds, a, k);
    k := k + 1;
    cmds := AppendFlag(cmds, a, k);
    k := k + 1;
    cmds := AppendFlag(cmds, a, k);
    k := k + 1;
    cmds := AppendFlag(cmds, a, k);
    k := k + 1;
    cmds := AppendFlag(cmds, a, k);
    k := k + 1;
    cmds := AppendFlag(cmds, a, k);
    k := k + 1;
    cmds := AppendFlag(cmds, a, k);
    k := k + 1;
    cmds := AppendFlag(cmds, a, k);
    k := k + 1;
    EncodeDone(a, cmds);
    DecodeEncode(a);
    if debug {
      VerboseIsLast(a);
    }
  }
}
