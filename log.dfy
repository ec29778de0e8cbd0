/** The data collection group tag of the log: a filter shared by the loggers
    stamps every record with the group id it holds, when that id is set; the
    callbacks set and clear it. Also where the log files go. */
module Log {
  import opened Wrappers
  import opened Plans

  /** A log record; `dcGroupId` is its tag attribute, absent until a filter
      stamps it. */
  class LogRecord {
    var message: string
    var dcGroupId: Option<Value>

    constructor(message: string)
      ensures this.message == message && dcGroupId == None
    {
      this.message := message;
      dcGroupId := None;
    }
  }

  /** The tag a record carries after a filter holding `id` saw it: stamped
      with the id when the id is truthy, left as it was otherwise. */
  function StampedTag(id: Value, before: Option<Value>): (after: Option<Value>)
  {
    if Truthy(id) then Some(id) else before
  }

  /** A truthy id always ends up on the record; a falsy one (None, 0, "")
      never touches it; and stamping twice is stamping once. */
  lemma StampedTagMeaning(id: Value, before: Option<Value>)
    ensures Truthy(id) ==> StampedTag(id, before) == Some(id)
    ensures !Truthy(id) ==> StampedTag(id, before) == before
    ensures StampedTag(id, StampedTag(id, before)) == StampedTag(id, before)
  {
  }

  /** `DCGIDFilter`: holds the current group id (None when there is none). */
  class DcgidFilter {
    var dcGroupId: Value

    constructor()
      ensures dcGroupId == NoneV
    {
      dcGroupId := NoneV;
    }

    /** `filter`: never drops a record; stamps it with the group id when the
        id is truthy. */
    method Filter(record: LogRecord) returns (keep: bool)
      modifies record`dcGroupId
      ensures keep
      ensures record.dcGroupId == StampedTag(dcGroupId, old(record.dcGroupId))
    {
      if Truthy(dcGroupId) {
        record.dcGroupId := Some(dcGroupId);
      }
      keep := true;
    }

    /** `set_dcgid_tag`: the id every later record is stamped with; None
        removes the tag. */
    method SetDcgidTag(dcgid: Value)
      modifies this
      ensures dcGroupId == dcgid
    {
      dcGroupId := dcgid;
    }
  }


  const DEFAULT_LOG_DIRECTORY: string := "./tmp/dev/"

  /** The directory of the log files: `HYPERION_LOG_DIR` when it is set and
      not empty, `./tmp/dev/` otherwise. `env` is the variable's value, if
      set. */
  function LoggingDirectory(env: Option<string>): (dir: string)
    ensures env.Some? && env.value != "" ==> dir == env.value
    ensures env.None? || env.value == "" ==> dir == DEFAULT_LOG_DIRECTORY
  {
    if env.Some? && env.value != "" then env.value else DEFAULT_LOG_DIRECTORY
  }

  /** The log file: the file name inside the chosen directory, as the
      directory and the name. */
  function LoggingFilePath(env: Option<string>, filename: string): (path: (string, string))
    ensures path.0 == LoggingDirectory(env) && path.0 != ""
    ensures path.1 == filename
  {
    (LoggingDirectory(env), filename)
  }
}
