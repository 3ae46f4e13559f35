/**
 * Console messages (the `ConsoleMessage` class of sdk/ConsoleModel.js) as
 * values: the enumerations of sources, types and levels, the constructor with
 * its defaults, the message that a console-API call produces, the grouping
 * predicates, the group category key, and content equality (`isEqual`, with
 * its stack-trace comparison).
 */
module ConsoleMessages {
  import opened Wrappers
  import opened JsString

  /** An opaque, comparable handle standing for a runtime model (one per debugging target). */
  type ModelId = nat

  datatype MessageSource =
    | XML | JS | Network | ConsoleAPI | Storage | AppCache | Rendering | CSS | Security
    | Deprecation | Worker | Violation | Intervention | Recommendation | Other

  function SourceName(s: MessageSource): string {
    match s
    case XML => "xml"
    case JS => "javascript"
    case Network => "network"
    case ConsoleAPI => "console-api"
    case Storage => "storage"
    case AppCache => "appcache"
    case Rendering => "rendering"
    case CSS => "css"
    case Security => "security"
    case Deprecation => "deprecation"
    case Worker => "worker"
    case Violation => "violation"
    case Intervention => "intervention"
    case Recommendation => "recommendation"
    case Other => "other"
  }

  datatype MessageType =
    | Log | Debug | Info | Error | Warning | Dir | DirXML | Table | Trace | Clear
    | StartGroup | StartGroupCollapsed | EndGroup | Assert | Result | Profile | ProfileEnd
    | DiracCommand | DiracMarkup | Command | System | QueryObjectResult

  function TypeName(t: MessageType): string {
    match t
    case Log => "log"
    case Debug => "debug"
    case Info => "info"
    case Error => "error"
    case Warning => "warning"
    case Dir => "dir"
    case DirXML => "dirxml"
    case Table => "table"
    case Trace => "trace"
    case Clear => "clear"
    case StartGroup => "startGroup"
    case StartGroupCollapsed => "startGroupCollapsed"
    case EndGroup => "endGroup"
    case Assert => "assert"
    case Result => "result"
    case Profile => "profile"
    case ProfileEnd => "profileEnd"
    case DiracCommand => "diracCommand"
    case DiracMarkup => "diracMarkup"
    case Command => "command"
    case System => "system"
    case QueryObjectResult => "queryObjectResult"
  }

  datatype MessageLevel = Verbose | Info | Warning | Error

  function LevelName(l: MessageLevel): string {
    match l
    case Verbose => "verbose"
    case Info => "info"
    case Warning => "warning"
    case Error => "error"
  }

  /**
   * The `value` of a protocol remote object. Numbers are integers here; an
   * object value is known only by its identity.
   */
  datatype Value = Undefined | Null | Boolean(b: bool) | Number(n: int) | Str(s: string) | ObjectRef(id: nat)

  /** A protocol remote object (an argument of a console call). */
  datatype RemoteObject = RemoteObject(
    objectType: string,
    subtype: Option<string>,
    value: Value,
    description: Option<string>,
    unserializableValue: Option<string>)

  datatype CallFrame = CallFrame(functionName: string, scriptId: string, url: string, lineNumber: int, columnNumber: int)

  /** A protocol stack trace: frames, and the asynchronous parent trace, if any. */
  datatype StackTrace = StackTrace(description: Option<string>, callFrames: seq<CallFrame>, parent: Option<StackTrace>)

  datatype ConsoleMessage = ConsoleMessage(
    runtimeModel: Option<ModelId>,
    source: MessageSource,
    level: Option<MessageLevel>,
    messageText: string,
    messageType: MessageType,
    url: Option<string>,
    line: int,
    column: int,
    parameters: Option<seq<RemoteObject>>,
    stackTrace: Option<StackTrace>,
    timestamp: int,
    executionContextId: int,
    scriptId: Option<string>,
    workerId: Option<string>,
    context: Option<string>,
    request: Option<nat>,
    exceptionId: Option<int>,
    pageLoadSequenceNumber: Option<nat>)

  /** `x || d` for an optional number: `undefined` and `0` both give `d`. */
  function NumberOr(x: Option<int>, d: int): int {
    if x.Some? && x.value != 0 then x.value else d
  }

  /** `s || undefined` for an optional string: the empty string is dropped. */
  function NonEmpty(s: Option<string>): (r: Option<string>)
    ensures r.Some? <==> s.Some? && s.value != ""
    ensures r.Some? ==> r == s
  {
    if s.Some? && s.value != "" then s else None
  }

  /** The match of the pattern "any run of non-#" at the start of `c`: everything before the first `#`. */
  function PrefixBeforeHash(c: string): (r: string)
    ensures r <= c
    ensures '#' !in r
    ensures |r| == |c| || c[|r|] == '#'
  {
    if c == [] || c[0] == '#' then [] else [c[0]] + PrefixBeforeHash(c[1..])
  }

  /**
   * `new ConsoleMessage(...)`. A missing or falsy type, line, column, timestamp
   * or execution context gets its default; an empty url, script id or worker id
   * is dropped; a non-empty context is cut at its first `#`. When the context id
   * is still 0 and a runtime model is known, the model is asked for the context
   * of the script (or else of the stack trace): those two lookups are parameters.
   */
  function NewMessage(
    runtimeModel: Option<ModelId>, source: MessageSource, level: Option<MessageLevel>,
    messageText: string, messageType: Option<MessageType>, url: Option<string>,
    line: Option<int>, column: Option<int>, parameters: Option<seq<RemoteObject>>,
    stackTrace: Option<StackTrace>, timestamp: Option<int>, executionContextId: Option<int>,
    scriptId: Option<string>, workerId: Option<string>, context: Option<string>,
    now: int, contextForScript: string -> int, contextForStack: StackTrace -> int): (m: ConsoleMessage)
    ensures m.source == source && m.level == level && m.messageText == messageText
    ensures m.parameters == parameters && m.stackTrace == stackTrace && m.runtimeModel == runtimeModel
    ensures messageType.Some? ==> m.messageType == messageType.value
    ensures messageType.None? ==> m.messageType == MessageType.Log
    ensures m.url.Some? <==> url.Some? && url.value != ""
    ensures m.url.Some? ==> m.url == url
    ensures line.Some? ==> m.line == line.value
    ensures line.None? ==> m.line == 0
    ensures column.Some? ==> m.column == column.value
    ensures column.None? ==> m.column == 0
    ensures timestamp.Some? && timestamp.value != 0 ==> m.timestamp == timestamp.value
    ensures timestamp.None? || timestamp.value == 0 ==> m.timestamp == now
    ensures m.scriptId.Some? <==> scriptId.Some? && scriptId.value != ""
    ensures m.scriptId.Some? ==> m.scriptId == scriptId
    ensures m.workerId.Some? <==> workerId.Some? && workerId.value != ""
    ensures m.workerId.Some? ==> m.workerId == workerId
    ensures executionContextId.Some? && executionContextId.value != 0 ==> m.executionContextId == executionContextId.value
    ensures (executionContextId.None? || executionContextId.value == 0) && runtimeModel.None? ==> m.executionContextId == 0
    ensures (executionContextId.None? || executionContextId.value == 0) && runtimeModel.Some? ==>
      m.executionContextId ==
        (if m.scriptId.Some? then contextForScript(m.scriptId.value)
         else if stackTrace.Some? then contextForStack(stackTrace.value)
         else 0)
    ensures m.context.Some? <==> context.Some? && context.value != ""
    ensures m.context.Some? ==> m.context.value == PrefixBeforeHash(context.value)
    ensures m.exceptionId.None? && m.pageLoadSequenceNumber.None? && m.request.None?
  {
    var script := NonEmpty(scriptId);
    var given := NumberOr(executionContextId, 0);
    var contextId :=
      if given == 0 && runtimeModel.Some? then
        (if script.Some? then contextForScript(script.value)
         else if stackTrace.Some? then contextForStack(stackTrace.value)
         else given)
      else given;
    ConsoleMessage(
      runtimeModel, source, level, messageText,
      if messageType.Some? then messageType.value else MessageType.Log,
      NonEmpty(url), NumberOr(line, 0), NumberOr(column, 0), parameters, stackTrace,
      NumberOr(timestamp, now), contextId, script, NonEmpty(workerId),
      if context.Some? && context.value != "" then Some(PrefixBeforeHash(context.value)) else None,
      None, None, None)
  }

  /** With every optional argument left out the constructor fills in its documented defaults. */
  lemma NewMessageDefaults(
    runtimeModel: Option<ModelId>, source: MessageSource, level: Option<MessageLevel>,
    messageText: string, now: int, contextForScript: string -> int, contextForStack: StackTrace -> int)
    ensures var m := NewMessage(runtimeModel, source, level, messageText, None, None, None, None, None,
      None, None, None, None, None, None, now, contextForScript, contextForStack);
      m.messageType == MessageType.Log && m.line == 0 && m.column == 0 && m.url.None? &&
      m.executionContextId == 0 && m.timestamp == now && m.scriptId.None? && m.workerId.None? &&
      m.context.None?
  {
  }

  /**
   * The context a new message keeps is the longest prefix of the given one
   * without `#`: all of it when it has no `#`, and the empty string when it
   * starts with one.
   */
  lemma NewMessageContext(
    runtimeModel: Option<ModelId>, source: MessageSource, level: Option<MessageLevel>,
    messageText: string, messageType: Option<MessageType>, url: Option<string>,
    line: Option<int>, column: Option<int>, parameters: Option<seq<RemoteObject>>,
    stackTrace: Option<StackTrace>, timestamp: Option<int>, executionContextId: Option<int>,
    scriptId: Option<string>, workerId: Option<string>, context: Option<string>,
    now: int, contextForScript: string -> int, contextForStack: StackTrace -> int)
    requires context.Some? && context.value != ""
    ensures var m := NewMessage(runtimeModel, source, level, messageText, messageType, url, line, column,
      parameters, stackTrace, timestamp, executionContextId, scriptId, workerId, context,
      now, contextForScript, contextForStack);
      var c := context.value;
      m.context.Some? && m.context.value <= c && '#' !in m.context.value &&
      (m.context.value == c || c[|m.context.value|] == '#') &&
      ('#' !in c ==> m.context.value == c) &&
      (c[0] == '#' ==> m.context.value == "")
  {
  }

  // ----- Console API calls (ConsoleModel._consoleAPICalled) -----

  /** A `Runtime.consoleAPICalled` event. */
  datatype ConsoleApiCall = ConsoleApiCall(
    callType: MessageType, args: seq<RemoteObject>, stackTrace: Option<StackTrace>,
    timestamp: int, executionContextId: int, context: Option<string>)

  /** The level a console-API call is logged at. */
  function ConsoleApiLevel(t: MessageType): (r: MessageLevel)
    ensures r == MessageLevel.Verbose <==> t == MessageType.Debug
    ensures r == MessageLevel.Error <==> t == MessageType.Error || t == MessageType.Assert
    ensures r == MessageLevel.Warning <==> t == MessageType.Warning
    ensures r == MessageLevel.Info <==>
      !(t == MessageType.Debug || t == MessageType.Error || t == MessageType.Assert || t == MessageType.Warning)
  {
    if t == MessageType.Debug then MessageLevel.Verbose
    else if t == MessageType.Error || t == MessageType.Assert then MessageLevel.Error
    else if t == MessageType.Warning then MessageLevel.Warning
    else if t == MessageType.Info || t == MessageType.Log then MessageLevel.Info
    else MessageLevel.Info
  }

  /** `typeof v === 'object' && v !== null`. */
  predicate IsObjectValue(v: Value) {
    v.ObjectRef?
  }

  /** `v + ''` for a value that is not an object. */
  function ValueToString(v: Value): string {
    match v
    case Undefined => "undefined"
    case Null => "null"
    case Boolean(b) => if b then "true" else "false"
    case Number(n) => IntToDecimal(n)
    case Str(s) => s
    case ObjectRef(_) => "[object Object]"
  }

  /**
   * The text of a console-API message: the first argument's unserializable
   * value, else its value as a string when it is not an object, else its
   * description, else the empty string.
   */
  function ConsoleApiText(args: seq<RemoteObject>): (r: string)
    ensures args == [] ==> r == ""
    ensures args != [] && NonEmpty(args[0].unserializableValue).None? && !IsObjectValue(args[0].value) ==>
      r == ValueToString(args[0].value)
    ensures args != [] && NonEmpty(args[0].unserializableValue).None? && args[0].value.Str? ==> r == args[0].value.s
    ensures args != [] && NonEmpty(args[0].unserializableValue).Some? ==> r == args[0].unserializableValue.value
    ensures args != [] && NonEmpty(args[0].unserializableValue).None? && IsObjectValue(args[0].value) ==>
      r == (if NonEmpty(args[0].description).Some? then args[0].description.value else "")
  {
    if args == [] then ""
    else if NonEmpty(args[0].unserializableValue).Some? then args[0].unserializableValue.value
    else if !IsObjectValue(args[0].value) then ValueToString(args[0].value)
    else if NonEmpty(args[0].description).Some? then args[0].description.value
    else ""
  }

  /** The message that `_consoleAPICalled` builds before adding it to the log. */
  function ConsoleApiMessage(
    model: ModelId, call: ConsoleApiCall, now: int,
    contextForScript: string -> int, contextForStack: StackTrace -> int): (m: ConsoleMessage)
    ensures m.source == MessageSource.ConsoleAPI && m.runtimeModel == Some(model)
    ensures m.level == Some(ConsoleApiLevel(call.callType)) && m.messageType == call.callType
    ensures m.messageText == ConsoleApiText(call.args) && m.parameters == Some(call.args)
    ensures m.exceptionId.None?
  {
    var frame :=
      if call.stackTrace.Some? && |call.stackTrace.value.callFrames| > 0
      then Some(call.stackTrace.value.callFrames[0]) else None;
    NewMessage(
      Some(model), MessageSource.ConsoleAPI, Some(ConsoleApiLevel(call.callType)),
      ConsoleApiText(call.args), Some(call.callType),
      if frame.Some? then Some(frame.value.url) else None,
      if frame.Some? then Some(frame.value.lineNumber) else None,
      if frame.Some? then Some(frame.value.columnNumber) else None,
      Some(call.args), call.stackTrace, Some(call.timestamp), Some(call.executionContextId),
      None, None, call.context, now, contextForScript, contextForStack)
  }

  // ----- Grouping -----

  predicate IsGroupStartMessage(m: ConsoleMessage) {
    m.messageType == MessageType.StartGroup || m.messageType == MessageType.StartGroupCollapsed
  }

  predicate IsGroupMessage(m: ConsoleMessage) {
    m.messageType == MessageType.StartGroup || m.messageType == MessageType.StartGroupCollapsed ||
    m.messageType == MessageType.EndGroup
  }

  predicate IsErrorOrWarning(m: ConsoleMessage) {
    m.level == Some(MessageLevel.Warning) || m.level == Some(MessageLevel.Error)
  }

  /** Whether similar messages may be collapsed into one group in the console view. */
  predicate IsGroupable(m: ConsoleMessage) {
    var isUngroupableError := m.level == Some(MessageLevel.Error) &&
      (m.source == MessageSource.JS || m.source == MessageSource.Network);
    m.source != MessageSource.ConsoleAPI && m.messageType != MessageType.Command &&
    m.messageType != MessageType.Result && m.messageType != MessageType.System && !isUngroupableError
  }

  /** `parts.join(':')`. */
  function Join(parts: seq<string>): string {
    if parts == [] then "" else if |parts| == 1 then parts[0] else parts[0] + ":" + Join(parts[1..])
  }

  /** `null` and `undefined` join as the empty string. */
  function LevelText(l: Option<MessageLevel>): string {
    if l.Some? then LevelName(l.value) else ""
  }

  function SequenceText(n: Option<nat>): string {
    if n.Some? then NatToDecimal(n.value) else ""
  }

  /** `[source, level, type, pageLoadSequenceNumber].join(':')`. */
  function GroupCategoryKey(m: ConsoleMessage): string {
    Join([SourceName(m.source), LevelText(m.level), TypeName(m.messageType), SequenceText(m.pageLoadSequenceNumber)])
  }

  /** The index of the first `:` in `s`, or its length when there is none. */
  function ColonIndex(s: string): (r: nat)
    ensures r <= |s|
  {
    if s == [] || s[0] == ':' then 0 else 1 + ColonIndex(s[1..])
  }

  lemma {:induction false} ColonIndexAfter(x: string, y: string)
    requires ':' !in x
    ensures ColonIndex(x + ":" + y) == |x|
  {
    if x != [] {
      assert (x + ":" + y)[1..] == x[1..] + ":" + y;
      ColonIndexAfter(x[1..], y);
    }
  }

  lemma SplitAtColon(x1: string, y1: string, x2: string, y2: string)
    requires ':' !in x1 && ':' !in x2
    requires x1 + ":" + y1 == x2 + ":" + y2
    ensures x1 == x2 && y1 == y2
  {
    var s := x1 + ":" + y1;
    ColonIndexAfter(x1, y1);
    ColonIndexAfter(x2, y2);
    assert x1 == s[..|x1|] == x2;
    assert y1 == s[|x1| + 1..] == y2;
  }

  /** Joining parts that contain no `:` loses nothing: equal joins come from equal parts. */
  lemma {:induction false} JoinInjective(p: seq<string>, q: seq<string>)
    requires |p| == |q|
    requires forall i :: 0 <= i < |p| ==> ':' !in p[i]
    requires forall i :: 0 <= i < |q| ==> ':' !in q[i]
    requires Join(p) == Join(q)
    ensures p == q
  {
    if |p| >= 2 {
      SplitAtColon(p[0], Join(p[1..]), q[0], Join(q[1..]));
      JoinInjective(p[1..], q[1..]);
      assert p == [p[0]] + p[1..] && q == [q[0]] + q[1..];
    }
  }

  lemma NamesHaveNoColon(m: ConsoleMessage)
    ensures ':' !in SourceName(m.source) && ':' !in LevelText(m.level)
    ensures ':' !in TypeName(m.messageType) && ':' !in SequenceText(m.pageLoadSequenceNumber)
  {
    SourceNameNoColon(m.source);
    TypeNameNoColon(m.messageType);
    if m.pageLoadSequenceNumber.Some? {
      var d := NatToDecimal(m.pageLoadSequenceNumber.value);
      assert forall k :: 0 <= k < |d| ==> d[k] != ':';
    }
  }

  lemma SourceNameNoColon(s: MessageSource)
    ensures ':' !in SourceName(s)
  {
    match s
    case XML =>
    case JS =>
    case Network =>
    case ConsoleAPI =>
    case Storage =>
    case AppCache =>
    case Rendering =>
    case CSS =>
    case Security =>
    case Deprecation =>
    case Worker =>
    case Violation =>
    case Intervention =>
    case Recommendation =>
    case Other =>
  }

  lemma TypeNameNoColon(t: MessageType)
    ensures ':' !in TypeName(t)
  {
    match t
    case Log =>
    case Debug =>
    case Info =>
    case Error =>
    case Warning =>
    case Dir =>
    case DirXML =>
    case Table =>
    case Trace =>
    case Clear =>
    case StartGroup =>
    case StartGroupCollapsed =>
    case EndGroup =>
    case Assert =>
    case Result =>
    case Profile =>
    case ProfileEnd =>
    case DiracCommand =>
    case DiracMarkup =>
    case Command =>
    case System =>
    case QueryObjectResult =>
  }

  lemma SourceNameInjective(a: MessageSource, b: MessageSource)
    requires SourceName(a) == SourceName(b)
    ensures a == b
  {
  }

  lemma TypeNameInjective(a: MessageType, b: MessageType)
    requires TypeName(a) == TypeName(b)
    ensures a == b
  {
  }

  lemma LevelTextInjective(a: Option<MessageLevel>, b: Option<MessageLevel>)
    requires LevelText(a) == LevelText(b)
    ensures a == b
  {
  }

  lemma SequenceTextInjective(a: Option<nat>, b: Option<nat>)
    requires SequenceText(a) == SequenceText(b)
    ensures a == b
  {
    if a.Some? && b.Some? {
      IntToDecimalInjective(a.value, b.value);
    }
  }

  /**
   * Two messages share a group category key exactly when they agree on source,
   * level, type and page-load sequence number.
   */
  lemma GroupCategoryKeyExact(a: ConsoleMessage, b: ConsoleMessage)
    ensures GroupCategoryKey(a) == GroupCategoryKey(b) <==>
      a.source == b.source && a.level == b.level && a.messageType == b.messageType &&
      a.pageLoadSequenceNumber == b.pageLoadSequenceNumber
  {
    if GroupCategoryKey(a) == GroupCategoryKey(b) {
      var p := [SourceName(a.source), LevelText(a.level), TypeName(a.messageType), SequenceText(a.pageLoadSequenceNumber)];
      var q := [SourceName(b.source), LevelText(b.level), TypeName(b.messageType), SequenceText(b.pageLoadSequenceNumber)];
      NamesHaveNoColon(a);
      NamesHaveNoColon(b);
      JoinInjective(p, q);
      assert p[0] == q[0] && p[1] == q[1] && p[2] == q[2] && p[3] == q[3];
      SourceNameInjective(a.source, b.source);
      LevelTextInjective(a.level, b.level);
      TypeNameInjective(a.messageType, b.messageType);
      SequenceTextInjective(a.pageLoadSequenceNumber, b.pageLoadSequenceNumber);
    }
  }

  /** Messages in one group category agree on every grouping predicate. */
  lemma GroupCategoryAgrees(a: ConsoleMessage, b: ConsoleMessage)
    requires GroupCategoryKey(a) == GroupCategoryKey(b)
    ensures IsGroupable(a) == IsGroupable(b)
    ensures IsGroupMessage(a) == IsGroupMessage(b) && IsGroupStartMessage(a) == IsGroupStartMessage(b)
    ensures IsErrorOrWarning(a) == IsErrorOrWarning(b)
  {
    GroupCategoryKeyExact(a, b);
  }

  // ----- Content equality (isEqual and _isEqualStackTraces) -----

  /** The parts of a call frame that stack-trace comparison looks at (the script id is ignored). */
  datatype FrameKey = FrameKey(url: string, functionName: string, lineNumber: int, columnNumber: int)

  function KeyOf(f: CallFrame): FrameKey {
    FrameKey(f.url, f.functionName, f.lineNumber, f.columnNumber)
  }

  function FrameKeys(frames: seq<CallFrame>): (r: seq<FrameKey>)
    ensures |r| == |frames| && forall i :: 0 <= i < |frames| ==> r[i] == KeyOf(frames[i])
  {
    seq(|frames|, i requires 0 <= i < |frames| => KeyOf(frames[i]))
  }

  /** A stack trace seen as the list of its frame keys, level by level along the parent chain. */
  function FrameChain(st: Option<StackTrace>): seq<seq<FrameKey>>
    decreases st
  {
    if st.None? then [] else [FrameKeys(st.value.callFrames)] + FrameChain(st.value.parent)
  }

  /**
   * `_isEqualStackTraces`: both absent, or both present with frame-wise equal
   * url, function name, line and column, and equal parent traces.
   */
  method IsEqualStackTraces(st1: Option<StackTrace>, st2: Option<StackTrace>) returns (r: bool)
    ensures r <==> FrameChain(st1) == FrameChain(st2)
    decreases st1
  {
    if st1.Some? != st2.Some? {
      assert |FrameChain(st1)| != |FrameChain(st2)|;
      return false;
    }
    if st1.None? {
      return true;
    }
    var frames1 := st1.value.callFrames;
    var frames2 := st2.value.callFrames;
    if |frames1| != |frames2| {
      assert FrameChain(st1)[0] != FrameChain(st2)[0];
      return false;
    }
    var i := 0;
    while i < |frames1|
      invariant 0 <= i <= |frames1|
      invariant forall j :: 0 <= j < i ==> KeyOf(frames1[j]) == KeyOf(frames2[j])
    {
      if frames1[i].url != frames2[i].url || frames1[i].functionName != frames2[i].functionName ||
         frames1[i].lineNumber != frames2[i].lineNumber || frames1[i].columnNumber != frames2[i].columnNumber {
        assert FrameChain(st1)[0][i] != FrameChain(st2)[0][i];
        return false;
      }
      i := i + 1;
    }
    assert FrameKeys(frames1) == FrameKeys(frames2);
    r := IsEqualStackTraces(st1.value.parent, st2.value.parent);
    assert FrameChain(st1) == [FrameKeys(frames1)] + FrameChain(st1.value.parent);
    assert FrameChain(st2) == [FrameKeys(frames2)] + FrameChain(st2.value.parent);
    assert FrameChain(st1) == FrameChain(st2) ==> FrameChain(st1)[1..] == FrameChain(st2)[1..];
  }

  /** An argument that is never considered equal to anything: an object that is not an error. */
  predicate IsLiveObject(p: RemoteObject) {
    p.objectType == "object" && p.subtype != Some("error")
  }

  predicate SameRemoteObject(p: RemoteObject, q: RemoteObject) {
    p.objectType == q.objectType && p.value == q.value && p.description == q.description
  }

  /**
   * The parameter part of `isEqual`: skipped when the receiver has no
   * parameters; otherwise the argument's parameters must exist, be as many,
   * contain no live object, and match one by one.
   */
  predicate ParametersMatch(mine: Option<seq<RemoteObject>>, theirs: Option<seq<RemoteObject>>) {
    mine.None? ||
    (theirs.Some? && |mine.value| == |theirs.value| &&
     forall i :: 0 <= i < |theirs.value| ==>
       !IsLiveObject(theirs.value[i]) && SameRemoteObject(mine.value[i], theirs.value[i]))
  }

  /** The fields `isEqual` compares directly. */
  predicate SameHeader(a: ConsoleMessage, b: ConsoleMessage) {
    a.runtimeModel == b.runtimeModel && a.source == b.source && a.messageType == b.messageType &&
    a.level == b.level && a.line == b.line && a.url == b.url && a.messageText == b.messageText &&
    a.request == b.request && a.executionContextId == b.executionContextId
  }

  /** Content equality as `isEqual` decides it, stated without its loops. */
  predicate ContentEqual(a: ConsoleMessage, msg: Option<ConsoleMessage>) {
    msg.Some? && FrameChain(a.stackTrace) == FrameChain(msg.value.stackTrace) &&
    ParametersMatch(a.parameters, msg.value.parameters) && SameHeader(a, msg.value)
  }

  /** `a.isEqual(msg)`. */
  method IsEqual(a: ConsoleMessage, msg: Option<ConsoleMessage>) returns (r: bool)
    ensures r == ContentEqual(a, msg)
  {
    if msg.None? {
      return false;
    }
    var b := msg.value;
    var sameStacks := IsEqualStackTraces(a.stackTrace, b.stackTrace);
    if !sameStacks {
      return false;
    }
    if a.parameters.Some? {
      if b.parameters.None? || |a.parameters.value| != |b.parameters.value| {
        return false;
      }
      var mine := a.parameters.value;
      var theirs := b.parameters.value;
      var i := 0;
      while i < |theirs|
        invariant 0 <= i <= |theirs|
        invariant forall j :: 0 <= j < i ==> !IsLiveObject(theirs[j]) && SameRemoteObject(mine[j], theirs[j])
      {
        if theirs[i].objectType == "object" && theirs[i].subtype != Some("error") {
          return false;
        }
        if mine[i].objectType != theirs[i].objectType || mine[i].value != theirs[i].value ||
           mine[i].description != theirs[i].description {
          return false;
        }
        i := i + 1;
      }
    }
    r := a.runtimeModel == b.runtimeModel && a.source == b.source && a.messageType == b.messageType &&
      a.level == b.level && a.line == b.line && a.url == b.url && a.messageText == b.messageText &&
      a.request == b.request && a.executionContextId == b.executionContextId;
  }

  predicate HasLiveObject(ps: Option<seq<RemoteObject>>) {
    ps.Some? && exists i :: 0 <= i < |ps.value| && IsLiveObject(ps.value[i])
  }

  /**
   * `isEqual` is false for `null`, and false whenever the receiver has
   * parameters and the argument carries an object that is not an error.
   */
  lemma IsEqualRejects(a: ConsoleMessage, msg: Option<ConsoleMessage>)
    ensures msg.None? ==> !ContentEqual(a, msg)
    ensures msg.Some? && a.parameters.Some? && HasLiveObject(msg.value.parameters) ==> !ContentEqual(a, msg)
  {
  }

  /** A message without live objects among its parameters is equal to itself. */
  lemma IsEqualReflexive(m: ConsoleMessage)
    requires !HasLiveObject(m.parameters)
    ensures ContentEqual(m, Some(m))
  {
  }

  /**
   * Between messages that both have parameters, or both have none, and carry no
   * live objects, equality is symmetric.
   */
  lemma IsEqualSymmetric(a: ConsoleMessage, b: ConsoleMessage)
    requires a.parameters.Some? == b.parameters.Some?
    requires !HasLiveObject(a.parameters) && !HasLiveObject(b.parameters)
    ensures ContentEqual(a, Some(b)) == ContentEqual(b, Some(a))
  {
  }

  /**
   * A receiver without parameters skips the parameter comparison, so `isEqual`
   * is not symmetric in general: a message with no parameters equals its copy
   * with an empty parameter list, but not the other way round.
   */
  lemma IsEqualNotSymmetric(m: ConsoleMessage)
    requires m.parameters.None?
    ensures ContentEqual(m, Some(m.(parameters := Some([]))))
    ensures !ContentEqual(m.(parameters := Some([])), Some(m))
  {
  }
}
