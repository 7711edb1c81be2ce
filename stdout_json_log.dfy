/**
 * `BunyanStdoutJsonLog`, the Bunyan stream of the scanning worker that writes
 * every log record to standard output as one structured-logging JSON line.
 *
 * A record is a JavaScript object that `formatEntry_` rewrites in place; it is
 * modelled as a `Record` object holding a map from property names to values.
 * Two collaborators are foreign and stay uninterpreted: the level-to-severity
 * lookup `BUNYAN_TO_STACKDRIVER.get(Number(level))` and `JSON.stringify`. The
 * constructor receives them as functions; `stdout` records the calls made to
 * `process.stdout.write`.
 */
module StdoutJsonLog {
  import opened Wrappers

  /** JavaScript values, as far as the formatter tells them apart. */
  datatype Value =
    | Undefined
    | Null
    | Bool(b: bool)
    | Num(n: real)
    | NaN
    | Str(s: string)
    | Fn(name: string)
    | Object(props: map<string, Value>)

  /** JavaScript truthiness: `undefined`, `null`, `false`, `0`, `NaN` and `""` are falsy. */
  predicate Truthy(v: Value)
  {
    match v
    case Undefined => false
    case Null => false
    case Bool(b) => b
    case Num(n) => n != 0.0
    case NaN => false
    case Str(s) => s != ""
    case Fn(_) => true
    case Object(_) => true
  }

  /** `v.key`. Reading a property of `undefined` or `null` throws, so callers pass neither. */
  function Get(v: Value, key: string): Value
    requires !v.Undefined? && !v.Null?
  {
    if v.Object? && key in v.props then v.props[key] else Undefined
  }

  /** `record.key` on a record: `undefined` when the property is absent. */
  function Field(fields: map<string, Value>, key: string): Value
  {
    if key in fields then fields[key] else Undefined
  }

  /** JavaScript's `a || b`: `a` if it is truthy, otherwise `b`. */
  function Or(a: Value, b: Value): (r: Value)
    ensures r == a || r == b
    ensures Truthy(r) <==> Truthy(a) || Truthy(b)
    ensures Truthy(a) ==> r == a
    ensures !Truthy(a) ==> r == b
  {
    if Truthy(a) then a else b
  }

  const DefaultLogName: Value := Str("bunyan_log")

  /**
   * The constructor's `logName`: `options.logName`, unless it is falsy or the
   * options are (a missing argument defaults to `null`), then 'bunyan_log'.
   */
  function LogNameOption(options: Value): (name: Value)
    ensures Truthy(name)
    ensures Truthy(options) && Truthy(Get(options, "logName")) ==> name == Get(options, "logName")
    ensures !Truthy(options) || !Truthy(Get(options, "logName")) ==> name == DefaultLogName
  {
    var opts := Or(options, Object(map[]));
    Or(Get(opts, "logName"), DefaultLogName)
  }

  /** The constructor's `resource`: `options.resource`, or `undefined` when the options are falsy. */
  function ResourceOption(options: Value): (resource: Value)
    ensures Truthy(options) ==> resource == Get(options, "resource")
    ensures !Truthy(options) ==> resource == Undefined
  {
    var opts := Or(options, Object(map[]));
    Get(opts, "resource")
  }

  /** `record.err && record.err.stack`, read for its truthiness. */
  function ErrorStack(fields: map<string, Value>): Value
  {
    var err := Field(fields, "err");
    if Truthy(err) then Get(err, "stack") else err
  }

  /** Property `key` is present with value `v`. */
  predicate Holds(fields: map<string, Value>, key: string, v: Value)
  {
    key in fields && fields[key] == v
  }

  /** Property `key` is present in `after` exactly when it is in `before`, with the same value. */
  predicate Kept(before: map<string, Value>, after: map<string, Value>, key: string)
  {
    (key in after <==> key in before) && (key in before ==> after[key] == before[key])
  }

  /** The properties `formatEntry_` may add, change or remove. */
  const Rewritten: set<string> := {"message", "msg", "time", "timestamp", "resource", "severity"}

  /** The record as `formatEntry_` leaves it, given the instance's resource and the severity lookup. */
  function FormatFields(rec: map<string, Value>, resource: Value, severityOf: Value -> Value): (r: map<string, Value>)
    // `message`: kept if truthy, else the error's stack (msg kept), else `msg` (moved)
    ensures Truthy(Field(rec, "message")) ==> Kept(rec, r, "message") && Kept(rec, r, "msg")
    ensures !Truthy(Field(rec, "message")) && Truthy(ErrorStack(rec)) ==>
              Holds(r, "message", ErrorStack(rec)) && Kept(rec, r, "msg")
    ensures !Truthy(Field(rec, "message")) && !Truthy(ErrorStack(rec)) && Truthy(Field(rec, "msg")) ==>
              Holds(r, "message", rec["msg"]) && "msg" !in r
    ensures !Truthy(Field(rec, "message")) && !Truthy(ErrorStack(rec)) && !Truthy(Field(rec, "msg")) ==>
              Kept(rec, r, "message") && Kept(rec, r, "msg")
    // `time` becomes `timestamp` when truthy
    ensures Truthy(Field(rec, "time")) ==> Holds(r, "timestamp", rec["time"]) && "time" !in r
    ensures !Truthy(Field(rec, "time")) ==> Kept(rec, r, "time") && Kept(rec, r, "timestamp")
    // `resource` and `severity` are always set
    ensures Holds(r, "resource", resource) && Holds(r, "severity", severityOf(Field(rec, "level")))
    // nothing else changes
    ensures forall k :: k !in Rewritten ==> Kept(rec, r, k)
  {
    var withMessage :=
      if Truthy(Field(rec, "message")) then rec
      else if Truthy(ErrorStack(rec)) then rec["message" := ErrorStack(rec)]
      else if Truthy(Field(rec, "msg")) then rec["message" := rec["msg"]] - {"msg"}
      else rec;
    var withTimestamp :=
      if Truthy(Field(withMessage, "time")) then withMessage["timestamp" := withMessage["time"]] - {"time"}
      else withMessage;
    var withResource := withTimestamp["resource" := resource];
    withResource["severity" := severityOf(Field(withResource, "level"))]
  }

  /** Formatting an already formatted record changes nothing. */
  lemma FormatIdempotent(rec: map<string, Value>, resource: Value, severityOf: Value -> Value)
    ensures var once := FormatFields(rec, resource, severityOf);
            FormatFields(once, resource, severityOf) == once
  {
    var once := FormatFields(rec, resource, severityOf);
    var twice := FormatFields(once, resource, severityOf);
    assert Field(once, "level") == Field(rec, "level");
    assert !Truthy(Field(once, "time"));
    forall k | k in twice || k in once
      ensures k in twice && k in once && twice[k] == once[k]
    {
      if k !in Rewritten {
        assert Kept(once, twice, k);
      }
    }
  }

  /** A log record: a JavaScript object that the formatter changes in place. */
  class Record {
    var fields: map<string, Value>

    constructor (fields: map<string, Value>)
      ensures this.fields == fields
    {
      this.fields := fields;
    }
  }

  /** What a Bunyan stream is handed: a raw record object, or an already serialised string. */
  datatype Entry = Text(text: string) | Raw(record: Record)

  datatype Error = Error(message: string)

  /** The error `formatEntry_` throws for a string record (the two halves of its text are joined without a space). */
  const NotRawStream: Error := Error("@google-cloud/logging-bunyan" + "only works as a raw bunyan stream type.")

  /** The result of `stream(level)`: a Bunyan stream declaration. */
  datatype StreamSpec = StreamSpec(level: Value, streamType: string, stream: BunyanStdoutJsonLog)

  /** The arguments `write` forwards to `process.stdout.write` besides the formatted line. */
  datatype WriteArgs = WriteArgs(encoding: Value, callback: Value)

  /** One call of `process.stdout.write(chunk, encoding, callback)`. */
  datatype StdoutWrite = StdoutWrite(chunk: string, encoding: Value, callback: Value)

  /** `args[i]`, or `undefined` past the end. */
  function Arg(args: seq<Value>, i: nat): Value
  {
    if i < |args| then args[i] else Undefined
  }

  /**
   * How `write` reads the arguments after the record (`rest` is `args[1..]`):
   * a string second argument is the encoding and the callback comes third;
   * otherwise there is no encoding and the second argument is the callback.
   */
  function WriteArguments(rest: seq<Value>): (w: WriteArgs)
    ensures w.encoding == Null || w.encoding.Str?
    ensures w.encoding.Str? <==> Arg(rest, 0).Str?
    ensures w.encoding.Str? ==> w.encoding == Arg(rest, 0) && w.callback == Arg(rest, 1)
    ensures !w.encoding.Str? ==> w.callback == Arg(rest, 0)
  {
    if Arg(rest, 0).Str? then WriteArgs(Arg(rest, 0), Arg(rest, 1)) else WriteArgs(Null, Arg(rest, 0))
  }

  class BunyanStdoutJsonLog {
    const logName: Value
    const resource: Value
    /** `level => BUNYAN_TO_STACKDRIVER.get(Number(level))` */
    const severityOf: Value -> Value
    /** `JSON.stringify` on a record */
    const stringify: map<string, Value> -> string
    var stdout: seq<StdoutWrite>

    /** `new BunyanStdoutJsonLog(options)`. */
    constructor (options: Value, severityOf: Value -> Value, stringify: map<string, Value> -> string)
      ensures logName == LogNameOption(options) && resource == ResourceOption(options)
      ensures this.severityOf == severityOf && this.stringify == stringify && stdout == []
    {
      var opts := Or(options, Object(map[]));
      logName := Or(Get(opts, "logName"), DefaultLogName);
      resource := Get(opts, "resource");
      this.severityOf, this.stringify := severityOf, stringify;
      stdout := [];
    }

    /** `stream(level)`: a raw-type stream declaration that writes to this instance. */
    function Stream(level: Value): (s: StreamSpec)
      ensures s.level == level && s.streamType == "raw" && s.stream == this
    {
      StreamSpec(level, "raw", this)
    }

    /** The serialised record followed by a newline: one line per record. */
    function Line(fields: map<string, Value>): (line: string)
      ensures |line| >= 1 && line[|line| - 1] == '\n'
      ensures line[..|line| - 1] == stringify(fields)
    {
      stringify(fields) + "\n"
    }

    /** `formatEntry_(record)`: rewrites a raw record in place and returns its line; a string record is rejected. */
    method FormatEntry(entry: Entry) returns (out: Result<string, Error>)
      modifies if entry.Raw? then {entry.record} else {}
      ensures entry.Text? ==> out == Failure(NotRawStream)
      ensures entry.Raw? ==> entry.record.fields == FormatFields(old(entry.record.fields), resource, severityOf)
      ensures entry.Raw? ==> out == Success(Line(entry.record.fields))
    {
      match entry
      case Text(_) =>
        out := Failure(NotRawStream);
      case Raw(record) =>
        if !Truthy(Field(record.fields, "message")) {
          var err := Field(record.fields, "err");
          if Truthy(err) && Truthy(Get(err, "stack")) {
            record.fields := record.fields["message" := Get(err, "stack")];
          } else if Truthy(Field(record.fields, "msg")) {
            record.fields := record.fields["message" := record.fields["msg"]];
            record.fields := record.fields - {"msg"};
          }
        }
        if Truthy(Field(record.fields, "time")) {
          record.fields := record.fields["timestamp" := record.fields["time"]];
          record.fields := record.fields - {"time"};
        }
        record.fields := record.fields["resource" := resource];
        record.fields := record.fields["severity" := severityOf(Field(record.fields, "level"))];
        out := Success(stringify(record.fields) + "\n");
    }

    /** `write(record, ...rest)`: formats the record and writes its line to standard output. */
    method Write(record: Entry, rest: seq<Value>) returns (out: Result<(), Error>)
      modifies this`stdout, if record.Raw? then {record.record} else {}
      ensures record.Text? ==> out == Failure(NotRawStream) && stdout == old(stdout)
      ensures record.Raw? ==> record.record.fields == FormatFields(old(record.record.fields), resource, severityOf)
      ensures record.Raw? ==> out.Success?
      ensures record.Raw? ==>
        stdout == old(stdout) + [StdoutWrite(Line(record.record.fields), WriteArguments(rest).encoding,
                                             WriteArguments(rest).callback)]
    {
      var encoding: Value := Null;
      var callback: Value;
      if Arg(rest, 0).Str? {
        encoding := Arg(rest, 0);
        callback := Arg(rest, 1);
      } else {
        callback := Arg(rest, 0);
      }
      var line := FormatEntry(record);
      if line.Failure? {
        out := Failure(line.error);
      } else {
        stdout := stdout + [StdoutWrite(line.value, encoding, callback)];
        out := Success(());
      }
    }
  }
}
