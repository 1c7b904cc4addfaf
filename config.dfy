/**
 * The command policy of the secure shell server (pkg/config/config.go):
 * allow and deny rules, limits and messages, their decoding from JSON with
 * bare-string shorthand and defaulting, the allow-list lookup and the
 * in-place extension of the allow list.
 *
 * JSON text is not parsed here: a document is already split into its fields,
 * and each rule list is given as a sequence of abstract elements.
 */
module Config {
  import opened Wrappers

  /** Seconds allowed for one execution when the configuration gives none. */
  const DefaultExecutionTimeout: int := 30

  /** Bytes of output allowed when the configuration gives none (50 KiB). */
  const DefaultMaxOutputSize: int := 50 * 1024

  /** Message used when the configuration leaves `defaultErrorMessage` empty. */
  const DefaultErrorMessage: string := "Command not allowed by security policy"

  /** The error Go's JSON decoder reports for empty input (an absent field). */
  const EndOfInput: string := "unexpected end of JSON input"

  /** A command that is explicitly denied, with an optional message ("" when absent). */
  datatype DenyCommand = DenyCommand(command: string, message: string)

  /** A command that is explicitly allowed; absent sub-command lists are empty. */
  datatype AllowCommand = AllowCommand(command: string, subCommands: seq<string>, denySubCommands: seq<string>)

  /** The value held by a ShellCommandConfig, field by field. */
  datatype Policy = Policy(
    allowedDirectories: seq<string>,
    allowCommands: seq<AllowCommand>,
    denyCommands: seq<DenyCommand>,
    defaultErrorMessage: string,
    blockLogPath: string,
    maxExecutionTime: int,
    maxOutputSize: int)

  // ---------------------------------------------------------------------------
  // The abstract JSON input
  // ---------------------------------------------------------------------------

  /**
   * One element of a rule list, as the decoder sees it: a JSON string, the
   * literal null (which decodes as the empty string, since the string form is
   * tried first), an object that decodes to a rule, or anything else (a
   * number, an array, an object with ill-typed fields) with its decoding error.
   */
  datatype Element<T> = JString(s: string) | JNull | JObject(value: T) | Undecodable(err: string)

  /**
   * A rule-list field of the configuration document: absent (Go passes empty
   * raw bytes on), the literal null, some other non-array value with the
   * decoder's error, or an array of elements.
   */
  datatype RawList<T> = Absent | JsonNull | NotArray(err: string) | Array(elems: seq<Element<T>>)

  /** The fields of a configuration document that was read as a JSON object. */
  datatype RawConfig = RawConfig(
    allowedDirectories: seq<string>,
    allowCommands: RawList<AllowCommand>,
    denyCommands: RawList<DenyCommand>,
    defaultErrorMessage: string,
    blockLogPath: string,
    maxExecutionTime: int,
    maxOutputSize: int)

  /** A configuration document: either not a well-formed object of that shape, or its fields. */
  datatype Document = Malformed(err: string) | Object(raw: RawConfig)

  // ---------------------------------------------------------------------------
  // Decoding rule lists
  // ---------------------------------------------------------------------------

  /** The rule a bare string stands for in the allow list. */
  function AllowString(s: string): AllowCommand {
    AllowCommand(s, [], [])
  }

  /** The rule a bare string stands for in the deny list. */
  function DenyString(s: string): DenyCommand {
    DenyCommand(s, "")
  }

  /** The rule one decodable element stands for. */
  function Entry<T>(e: Element<T>, fromString: string -> T): T
    requires !e.Undecodable?
  {
    match e
    case JString(s) => fromString(s)
    case JNull => fromString("")
    case JObject(v) => v
  }

  /** Element `i` is the first one that cannot be decoded. */
  ghost predicate FirstUndecodable<T>(elems: seq<Element<T>>, i: int) {
    0 <= i < |elems| && elems[i].Undecodable? &&
    forall j :: 0 <= j < i ==> !elems[j].Undecodable?
  }

  /**
   * What decoding a JSON array of rules yields: every element mapped in order,
   * or, all or nothing, the error of the first element that does not decode.
   */
  function DecodeElems<T>(elems: seq<Element<T>>, fromString: string -> T): (r: Result<seq<T>>)
    ensures r.Ok? <==> forall i :: 0 <= i < |elems| ==> !elems[i].Undecodable?
    ensures r.Ok? ==> |r.value| == |elems|
    ensures r.Ok? ==> forall i :: 0 <= i < |elems| ==> r.value[i] == Entry(elems[i], fromString)
    ensures r.Err? ==> exists i :: FirstUndecodable(elems, i) && r.error == elems[i].err
    decreases |elems|
  {
    if elems == [] then Ok([])
    else if elems[0].Undecodable? then
      assert FirstUndecodable(elems, 0);
      Err(elems[0].err)
    else
      var rest := DecodeElems(elems[1..], fromString);
      if rest.Err? then
        ShiftFirstUndecodable(elems, rest.error);
        rest
      else
        var r := [Entry(elems[0], fromString)] + rest.value;
        assert forall i :: 1 <= i < |elems| ==> elems[i] == elems[1..][i - 1];
        Ok(r)
  }

  /** The first undecodable element of the tail is the first of the whole list when the head decodes. */
  lemma ShiftFirstUndecodable<T>(elems: seq<Element<T>>, e: string)
    requires |elems| > 0 && !elems[0].Undecodable?
    requires exists i :: FirstUndecodable(elems[1..], i) && e == elems[1..][i].err
    ensures exists i :: FirstUndecodable(elems, i) && e == elems[i].err
  {
  }

  /** The first undecodable element is unique. */
  lemma FirstUndecodableUnique<T>(elems: seq<Element<T>>, i: int, k: int)
    requires FirstUndecodable(elems, i) && FirstUndecodable(elems, k)
    ensures i == k
  {
  }

  /**
   * What decoding a rule-list field yields. An absent field is an error (the
   * decoder rejects empty input), null is the empty list, any other
   * non-array is the decoder's error.
   */
  function DecodeRules<T>(raw: RawList<T>, fromString: string -> T): (r: Result<seq<T>>)
    ensures raw.Absent? ==> r == Err(EndOfInput)
    ensures raw.JsonNull? ==> r == Ok([])
    ensures raw.NotArray? ==> r == Err(raw.err)
    ensures raw.Array? ==> r == DecodeElems(raw.elems, fromString)
  {
    match raw
    case Absent => Err(EndOfInput)
    case JsonNull => Ok([])
    case NotArray(e) => Err(e)
    case Array(elems) => DecodeElems(elems, fromString)
  }

  /**
   * The decoding loop shared by both rule lists: try each element as a string,
   * then as an object, append, and stop at the first failure.
   */
  method DecodeLoop<T>(elems: seq<Element<T>>, fromString: string -> T) returns (r: Result<seq<T>>)
    ensures r == DecodeElems(elems, fromString)
  {
    var result: seq<T> := [];
    for i := 0 to |elems|
      invariant |result| == i
      invariant forall j :: 0 <= j < i ==> !elems[j].Undecodable? && result[j] == Entry(elems[j], fromString)
    {
      match elems[i] {
        case JString(s) =>
          result := result + [fromString(s)];
        case JNull =>
          result := result + [fromString("")];
        case JObject(v) =>
          result := result + [v];
        case Undecodable(e) =>
          assert FirstUndecodable(elems, i);
          ghost var d := DecodeElems(elems, fromString);
          ghost var k :| FirstUndecodable(elems, k) && d.error == elems[k].err;
          FirstUndecodableUnique(elems, i, k);
          return Err(e);
      }
    }
    assert DecodeElems(elems, fromString).value == result;
    return Ok(result);
  }

  /** Decodes the `allowCommands` field: strings become rules with no sub-command lists. */
  method UnmarshalAllowCommands(raw: RawList<AllowCommand>) returns (r: Result<seq<AllowCommand>>)
    ensures r == DecodeRules(raw, AllowString)
  {
    match raw {
      case Absent => return Err(EndOfInput);
      case JsonNull => return Ok([]);
      case NotArray(e) => return Err(e);
      case Array(elems) => r := DecodeLoop(elems, AllowString);
    }
  }

  /** Decodes the `denyCommands` field: strings become rules with an empty message. */
  method UnmarshalDenyCommands(raw: RawList<DenyCommand>) returns (r: Result<seq<DenyCommand>>)
    ensures r == DecodeRules(raw, DenyString)
  {
    match raw {
      case Absent => return Err(EndOfInput);
      case JsonNull => return Ok([]);
      case NotArray(e) => return Err(e);
      case Array(elems) => r := DecodeLoop(elems, DenyString);
    }
  }

  // ---------------------------------------------------------------------------
  // Decoding a whole configuration
  // ---------------------------------------------------------------------------

  /**
   * The configuration a document decodes to. The allow list is decoded
   * before the deny list and its error wins; the limits fall back to their
   * defaults when not positive and the message when empty, so a decoded
   * policy always has positive limits and a non-empty message.
   */
  function DecodeConfig(doc: Document): (r: Result<Policy>)
    ensures doc.Malformed? ==> r == Err(doc.err)
    ensures doc.Object? && DecodeRules(doc.raw.allowCommands, AllowString).Err? ==>
      r == Err("error unmarshaling allow commands: " + DecodeRules(doc.raw.allowCommands, AllowString).error)
    ensures doc.Object? && DecodeRules(doc.raw.allowCommands, AllowString).Ok? &&
            DecodeRules(doc.raw.denyCommands, DenyString).Err? ==>
      r == Err("error unmarshaling deny commands: " + DecodeRules(doc.raw.denyCommands, DenyString).error)
    ensures r.Ok? <==> doc.Object? && DecodeRules(doc.raw.allowCommands, AllowString).Ok? &&
                       DecodeRules(doc.raw.denyCommands, DenyString).Ok?
    ensures r.Ok? ==>
      && r.value.allowCommands == DecodeRules(doc.raw.allowCommands, AllowString).value
      && r.value.denyCommands == DecodeRules(doc.raw.denyCommands, DenyString).value
      && r.value.allowedDirectories == doc.raw.allowedDirectories
      && r.value.blockLogPath == doc.raw.blockLogPath
    ensures r.Ok? ==> r.value.maxExecutionTime > 0 && r.value.maxOutputSize > 0 && r.value.defaultErrorMessage != ""
    ensures r.Ok? && doc.raw.maxExecutionTime > 0 ==> r.value.maxExecutionTime == doc.raw.maxExecutionTime
    ensures r.Ok? && doc.raw.maxExecutionTime <= 0 ==> r.value.maxExecutionTime == DefaultExecutionTimeout
    ensures r.Ok? && doc.raw.maxOutputSize > 0 ==> r.value.maxOutputSize == doc.raw.maxOutputSize
    ensures r.Ok? && doc.raw.maxOutputSize <= 0 ==> r.value.maxOutputSize == DefaultMaxOutputSize
    ensures r.Ok? && doc.raw.defaultErrorMessage != "" ==> r.value.defaultErrorMessage == doc.raw.defaultErrorMessage
    ensures r.Ok? && doc.raw.defaultErrorMessage == "" ==> r.value.defaultErrorMessage == DefaultErrorMessage
  {
    match doc
    case Malformed(e) => Err(e)
    case Object(raw) =>
      var allow := DecodeRules(raw.allowCommands, AllowString);
      var deny := DecodeRules(raw.denyCommands, DenyString);
      if allow.Err? then Err("error unmarshaling allow commands: " + allow.error)
      else if deny.Err? then Err("error unmarshaling deny commands: " + deny.error)
      else Ok(Policy(
        raw.allowedDirectories,
        allow.value,
        deny.value,
        if raw.defaultErrorMessage != "" then raw.defaultErrorMessage else DefaultErrorMessage,
        raw.blockLogPath,
        if raw.maxExecutionTime > 0 then raw.maxExecutionTime else DefaultExecutionTimeout,
        if raw.maxOutputSize > 0 then raw.maxOutputSize else DefaultMaxOutputSize))
  }

  // ---------------------------------------------------------------------------
  // The allow list
  // ---------------------------------------------------------------------------

  /** Some rule of the allow list names exactly `cmd`. */
  predicate Allows(rules: seq<AllowCommand>, cmd: string) {
    exists i :: 0 <= i < |rules| && rules[i].command == cmd
  }

  /**
   * The allow list after adding `cmd`: unchanged when `cmd` is already
   * allowed, otherwise one plain rule for `cmd` appended at the end.
   */
  function WithAllowed(rules: seq<AllowCommand>, cmd: string): (r: seq<AllowCommand>)
    ensures Allows(r, cmd)
    ensures forall c :: Allows(r, c) <==> Allows(rules, c) || c == cmd
    ensures Allows(rules, cmd) ==> r == rules
    ensures !Allows(rules, cmd) ==> |r| == |rules| + 1 && r[..|rules|] == rules && r[|rules|] == AllowString(cmd)
  {
    if Allows(rules, cmd) then rules
    else
      var r := rules + [AllowString(cmd)];
      assert r[|rules|].command == cmd;
      assert forall c :: Allows(rules, c) ==> Allows(r, c) by {
        forall c | Allows(rules, c) ensures Allows(r, c) {
          var i :| 0 <= i < |rules| && rules[i].command == c;
          assert r[i] == rules[i];
        }
      }
      r
  }

  /** The configuration NewDefaultConfig returns. */
  function NewDefaultConfig(): (p: Policy)
    ensures p.allowedDirectories == ["/home", "/tmp"]
    ensures p.allowCommands == [AllowString("ls"), AllowString("cat"), AllowString("echo")]
    ensures forall c :: Allows(p.allowCommands, c) <==> c == "ls" || c == "cat" || c == "echo"
    ensures !Allows(p.allowCommands, "rm")
    ensures p.denyCommands == [DenyCommand("rm", "Remove command is not allowed")]
    ensures p.defaultErrorMessage == DefaultErrorMessage && p.blockLogPath == ""
    ensures p.maxExecutionTime == 30 && p.maxOutputSize == 51200
  {
    var p := Policy(
      ["/home", "/tmp"],
      [AllowString("ls"), AllowString("cat"), AllowString("echo")],
      [DenyCommand("rm", "Remove command is not allowed")],
      DefaultErrorMessage,
      "",
      DefaultExecutionTimeout,
      DefaultMaxOutputSize);
    assert p.allowCommands[0].command == "ls";
    assert p.allowCommands[1].command == "cat";
    assert p.allowCommands[2].command == "echo";
    p
  }

  // ---------------------------------------------------------------------------
  // The configuration object
  // ---------------------------------------------------------------------------

  /** A ShellCommandConfig: a mutable record of the policy fields. */
  class ShellCommandConfig {
    var allowedDirectories: seq<string>
    var allowCommands: seq<AllowCommand>
    var denyCommands: seq<DenyCommand>
    var defaultErrorMessage: string
    var blockLogPath: string
    var maxExecutionTime: int
    var maxOutputSize: int

    /** The current field values as a Policy. */
    function Snapshot(): Policy
      reads this
    {
      Policy(allowedDirectories, allowCommands, denyCommands, defaultErrorMessage,
             blockLogPath, maxExecutionTime, maxOutputSize)
    }

    /** A configuration holding `p` (a struct literal; the zero value is `Zero()`). */
    constructor (p: Policy)
      ensures Snapshot() == p
    {
      allowedDirectories := p.allowedDirectories;
      allowCommands := p.allowCommands;
      denyCommands := p.denyCommands;
      defaultErrorMessage := p.defaultErrorMessage;
      blockLogPath := p.blockLogPath;
      maxExecutionTime := p.maxExecutionTime;
      maxOutputSize := p.maxOutputSize;
    }

    /**
     * Decodes `doc` into this configuration. On any error nothing is
     * assigned; on success every field holds the decoded, defaulted value.
     */
    method UnmarshalJSON(doc: Document) returns (err: Option<string>)
      modifies this
      ensures DecodeConfig(doc).Err? ==> err == Some(DecodeConfig(doc).error) && unchanged(this)
      ensures DecodeConfig(doc).Ok? ==> err == None && Snapshot() == DecodeConfig(doc).value
    {
      if doc.Malformed? {
        return Some(doc.err);
      }
      var raw := doc.raw;
      var allow := UnmarshalAllowCommands(raw.allowCommands);
      if allow.Err? {
        return Some("error unmarshaling allow commands: " + allow.error);
      }
      var deny := UnmarshalDenyCommands(raw.denyCommands);
      if deny.Err? {
        return Some("error unmarshaling deny commands: " + deny.error);
      }

      allowedDirectories := raw.allowedDirectories;
      allowCommands := allow.value;
      denyCommands := deny.value;

      if raw.defaultErrorMessage != "" {
        defaultErrorMessage := raw.defaultErrorMessage;
      } else {
        defaultErrorMessage := DefaultErrorMessage;
      }

      blockLogPath := raw.blockLogPath;

      if raw.maxExecutionTime > 0 {
        maxExecutionTime := raw.maxExecutionTime;
      } else {
        maxExecutionTime := DefaultExecutionTimeout;
      }

      if raw.maxOutputSize > 0 {
        maxOutputSize := raw.maxOutputSize;
      } else {
        maxOutputSize := DefaultMaxOutputSize;
      }

      return None;
    }

    /**
     * Whether some allow rule names `cmd` exactly. Deny rules and the
     * sub-command lists play no part.
     */
    method IsCommandAllowed(cmd: string) returns (allowed: bool)
      ensures allowed <==> Allows(allowCommands, cmd)
    {
      for i := 0 to |allowCommands|
        invariant forall j :: 0 <= j < i ==> allowCommands[j].command != cmd
      {
        if allowCommands[i].command == cmd {
          return true;
        }
      }
      return false;
    }

    /** Adds `cmd` to the allow list unless it is already allowed. */
    method AddAllowedCommand(cmd: string)
      modifies this`allowCommands
      ensures allowCommands == WithAllowed(old(allowCommands), cmd)
    {
      var allowed := IsCommandAllowed(cmd);
      if !allowed {
        allowCommands := allowCommands + [AllowString(cmd)];
      }
    }
  }

  /** The zero value of a configuration, before any field is decoded into it. */
  function Zero(): Policy {
    Policy([], [], [], "", "", 0, 0)
  }

  /**
   * Loads a configuration from the result of reading its file: a read error
   * or a decoding error is wrapped and no configuration is returned.
   */
  method LoadConfigFromFile(file: Result<Document>) returns (c: ShellCommandConfig?, err: Option<string>)
    ensures file.Err? ==> c == null && err == Some("failed to read config file: " + file.error)
    ensures file.Ok? && DecodeConfig(file.value).Err? ==>
      c == null && err == Some("failed to decode config file: " + DecodeConfig(file.value).error)
    ensures file.Ok? && DecodeConfig(file.value).Ok? ==>
      err == None && c != null && fresh(c) && c.Snapshot() == DecodeConfig(file.value).value
  {
    if file.Err? {
      return null, Some("failed to read config file: " + file.error);
    }
    var config := new ShellCommandConfig(Zero());
    var e := config.UnmarshalJSON(file.value);
    if e.Some? {
      return null, Some("failed to decode config file: " + e.value);
    }
    return config, None;
  }
}
