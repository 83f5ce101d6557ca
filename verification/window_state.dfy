/**
 * The persisted window geometry store: one `WindowState` per window key,
 * kept in memory and written to `<config dir>/<app id>/window-state.json`
 * on every save.  The file system is a parameter: what the file held when
 * the store was created, and whether each write succeeds.
 */
module WindowStates {
  import opened Wrappers

  datatype WindowState = WindowState(x: int, y: int, width: nat, height: nat, maximized: bool, fullscreen: bool)

  type StateTable = map<string, WindowState>

  /** What reading `window-state.json` can come to. */
  datatype DiskFile =
    | Absent                      // the path does not exist
    | ReadFails                   // read_to_string fails
    | Unparsable                  // the text is not a state table
    | Stored(table: StateTable)   // a parsed state table

  /** `load_from_disk`: the stored table, or an empty one on any failure. */
  function LoadFromDisk(file: DiskFile): (t: StateTable)
    ensures file.Stored? ==> t == file.table
    ensures !file.Stored? ==> t == map[]
  {
    match file
    case Stored(table) => table
    case _ => map[]
  }

  /** `PathBuf::join` on Unix: an absolute component replaces the base. */
  function JoinPath(base: string, part: string): string {
    if |part| > 0 && part[0] == '/' then part
    else if base == "" then part
    else if base[|base| - 1] == '/' then base + part
    else base + "/" + part
  }

  /** `dirs::config_dir()`, or ".", then the app identifier, then `window-state.json`. */
  function ConfigPath(configDir: Option<string>, appId: string): string {
    JoinPath(JoinPath(if configDir.Some? then configDir.value else ".", appId), "window-state.json")
  }

  /** Without a config directory the file sits under `./<app id>/`. */
  lemma NoConfigDirUsesWorkingDirectory(appId: string)
    requires appId != "" && appId[0] != '/' && appId[|appId| - 1] != '/'
    ensures ConfigPath(None, appId) == "./" + appId + "/window-state.json"
  {
  }

  /** An absolute app identifier escapes the config directory. */
  lemma AbsoluteAppIdReplacesConfigDir(configDir: Option<string>, appId: string)
    requires appId != "" && appId[0] == '/' && appId[|appId| - 1] != '/'
    ensures ConfigPath(configDir, appId) == appId + "/window-state.json"
  {
  }

  /**
   * How `fs::write` ends: it creates (truncating) the file, then writes
   * the whole text.  Failing to create leaves the old file; failing after
   * the truncation leaves an empty or cut-off text.
   */
  datatype WriteResult = Written | CreateFailed | WriteFailed

  /** The file after writing `table` to it. */
  function AfterWrite(file: DiskFile, table: StateTable, w: WriteResult): DiskFile {
    match w
    case Written => Stored(table)
    case CreateFailed => file
    case WriteFailed => Unparsable   // a strict prefix of a JSON object is not JSON
  }

  /**
   * Reading the file back after a save: a complete write gives back the
   * table written; a write cut short after the truncation loses every
   * state, not only the new one; a failed create keeps what was there.
   */
  lemma ReloadAfterWrite(file: DiskFile, table: StateTable, w: WriteResult)
    ensures w.Written? ==> LoadFromDisk(AfterWrite(file, table, w)) == table
    ensures w.WriteFailed? ==> LoadFromDisk(AfterWrite(file, table, w)) == map[]
    ensures w.CreateFailed? ==> LoadFromDisk(AfterWrite(file, table, w)) == LoadFromDisk(file)
  {
  }

  class WindowStateManager {
    var states: StateTable
    const configPath: string
    /** What `window-state.json` holds. */
    var disk: DiskFile

    /** `WindowStateManager::new`: the table starts as what the file held. */
    constructor (appId: string, configDir: Option<string>, file: DiskFile)
      ensures configPath == ConfigPath(configDir, appId)
      ensures disk == file
      ensures states == LoadFromDisk(file)
    {
      configPath := ConfigPath(configDir, appId);
      disk := file;
      states := LoadFromDisk(file);
    }

    /**
     * `save_window_state`: insert, then write the whole table; a failed
     * write is ignored.  After a complete write, reloading gives the
     * in-memory table back.
     */
    method SaveWindowState(key: string, state: WindowState, w: WriteResult)
      modifies this
      ensures states == old(states)[key := state]
      ensures disk == AfterWrite(old(disk), states, w)
      ensures w.Written? ==> LoadFromDisk(disk) == states
    {
      states := states[key := state];
      disk := AfterWrite(disk, states, w);
      ReloadAfterWrite(old(disk), states, w);
    }

    /** `get_window_state`. */
    method GetWindowState(key: string) returns (r: Option<WindowState>)
      ensures r.Some? <==> key in states
      ensures r.Some? ==> r.value == states[key]
    {
      if key in states {
        r := Some(states[key]);
      } else {
        r := None;
      }
    }
  }
}
