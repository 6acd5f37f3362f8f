/**
 * The StackExchange.Redis collector's conversion of one profiled command
 * into a client span: the command text names the span and is its
 * `db.statement`, the creation time is its start, `db.type` is "redis",
 * and the command flags, rendered as text, are `redis.flags`.
 */
module RedisCollector {
  import opened Wrappers

  /** The bit set of StackExchange.Redis command flags. */
  type CommandFlags = bv32

  /** A profiled command: its text, its creation time (an opaque instant) and its flags. */
  datatype ProfiledCommand = ProfiledCommand(command: string, commandCreated: int, flags: CommandFlags)

  /** The part of a span the conversion determines. */
  datatype SpanRecord = SpanRecord(name: string, startTimestamp: int, attributes: map<string, string>)

  const DbType: string := "db.type"
  const DbStatement: string := "db.statement"
  const RedisFlags: string := "redis.flags"

  /** The value of an attribute, None when the span does not carry it. */
  function GetValue(span: SpanRecord, key: string): (v: Option<string>)
    ensures v.Some? <==> key in span.attributes
    ensures v.Some? ==> span.attributes[key] == v.value
  {
    if key in span.attributes then Some(span.attributes[key]) else None
  }

  /**
   * ProfilerCommandToSpan. `flagsText` is the enum's textual rendering
   * (CommandFlags.ToString), which this model leaves abstract.
   */
  function ProfilerCommandToSpan(command: ProfiledCommand, flagsText: CommandFlags -> string): (span: SpanRecord)
    ensures span.name == command.command
    ensures span.startTimestamp == command.commandCreated
    ensures GetValue(span, DbType) == Some("redis")
    ensures GetValue(span, DbStatement) == Some(span.name)
    ensures GetValue(span, RedisFlags) == Some(flagsText(command.flags))
  {
    SpanRecord(command.command, command.commandCreated,
      map[DbType := "redis", DbStatement := command.command, RedisFlags := flagsText(command.flags)])
  }

  /**
   * The span records which command it came from: its name and start give
   * back the command text and creation time, and its `redis.flags` value
   * the rendered flags.
   */
  lemma CommandRecoverable(c1: ProfiledCommand, c2: ProfiledCommand, flagsText: CommandFlags -> string)
    requires ProfilerCommandToSpan(c1, flagsText) == ProfilerCommandToSpan(c2, flagsText)
    ensures c1.command == c2.command && c1.commandCreated == c2.commandCreated
    ensures flagsText(c1.flags) == flagsText(c2.flags)
  {
    var s := ProfilerCommandToSpan(c1, flagsText);
    assert Some(flagsText(c1.flags)) == GetValue(s, RedisFlags) == Some(flagsText(c2.flags));
  }

  /** A "SET" command created at `t` gives a span named "SET" starting at `t`, a redis span whose statement is "SET". */
  lemma SetCommandSpan(t: int, flags: CommandFlags, flagsText: CommandFlags -> string)
    ensures var span := ProfilerCommandToSpan(ProfiledCommand("SET", t, flags), flagsText);
      && span.name == "SET" && span.startTimestamp == t
      && span.attributes[DbType] == "redis" && span.attributes[DbStatement] == "SET"
  {
    var span := ProfilerCommandToSpan(ProfiledCommand("SET", t, flags), flagsText);
    assert GetValue(span, DbType) == Some("redis");
  }
}
