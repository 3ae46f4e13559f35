/**
 * The console message log (the `ConsoleModel` class of sdk/ConsoleModel.js).
 *
 * The state is the ordered message list, the two-level exception map from
 * (runtime model, exception id) to the message that reported the exception,
 * three counters and the page-load sequence number (the epoch). The map stores
 * the position of the message in the list: the stored position stands for the
 * shared message object, so demoting a revoked exception updates the very
 * entry the list displays.
 *
 * The transitions are first stated as functions on `LogState` values; their
 * properties and the invariants they keep are lemmas here. The class
 * `ConsoleModel` at the end updates its fields step by step, as the source
 * does, and each method is proved to produce the state its function describes.
 * Each operation also returns the notifications it dispatches, in order.
 */
module ConsoleLog {
  import opened Wrappers
  import opened ConsoleMessages

  /** A message whose first parameter is this string goes to the DiracMessage channel and is not logged. */
  const DiracSentinel: string := "~~$DIRAC-MSG$~~"

  /** `firstParam && firstParam.value == "~~$DIRAC-MSG$~~"`. */
  predicate IsDiracMessage(m: ConsoleMessage) {
    m.parameters.Some? && |m.parameters.value| > 0 && m.parameters.value[0].value == Str(DiracSentinel)
  }

  /** A `console.clear()` call. */
  predicate IsConsoleClear(m: ConsoleMessage) {
    m.source == MessageSource.ConsoleAPI && m.messageType == MessageType.Clear
  }

  /** `msg._exceptionId && runtimeModel`: only such messages enter the exception map. */
  predicate IsRegistrable(m: ConsoleMessage) {
    m.exceptionId.Some? && m.exceptionId.value != 0 && m.runtimeModel.Some?
  }

  datatype ConsoleEvent =
    | ConsoleCleared
    | MessageAdded(message: ConsoleMessage)
    | MessageUpdated(message: ConsoleMessage)
    | DiracMessage(message: ConsoleMessage)

  datatype LogState = LogState(
    messages: seq<ConsoleMessage>,
    byException: map<ModelId, map<int, nat>>,
    warnings: int,
    errors: int,
    violations: int,
    pageLoadSequenceNumber: nat)

  /** The state after an operation, and the notifications it dispatched in order. */
  datatype Step = Step(state: LogState, events: seq<ConsoleEvent>)

  /** A freshly constructed model. */
  const Initial: LogState := LogState([], map[], 0, 0, 0, 0)

  // ----- Invariants -----

  predicate Registered(s: LogState, model: ModelId, id: int) {
    model in s.byException && id in s.byException[model]
  }

  /** The entry of (model, id) designates a message reported under that runtime model and that (truthy) exception id. */
  predicate EntrySound(s: LogState, model: ModelId, id: int)
    requires Registered(s, model, id)
  {
    var k := s.byException[model][id];
    k < |s.messages| && s.messages[k].runtimeModel == Some(model) &&
    s.messages[k].exceptionId == Some(id) && id != 0
  }

  /** Every entry of the exception map designates a message of the log. */
  ghost predicate ExceptionMapSound(s: LogState) {
    forall model, id :: Registered(s, model, id) ==> EntrySound(s, model, id)
  }

  function EpochOf(m: ConsoleMessage): nat {
    if m.pageLoadSequenceNumber.Some? then m.pageLoadSequenceNumber.value else 0
  }

  /**
   * Every logged message is stamped with the epoch it was added in: stamps
   * never exceed the current epoch and never decrease along the log.
   */
  ghost predicate EpochsOrdered(s: LogState) {
    (forall i :: 0 <= i < |s.messages| ==>
       s.messages[i].pageLoadSequenceNumber.Some? && EpochOf(s.messages[i]) <= s.pageLoadSequenceNumber) &&
    (forall i, j :: 0 <= i < j < |s.messages| ==> EpochOf(s.messages[i]) <= EpochOf(s.messages[j]))
  }

  ghost predicate Inv(s: LogState) {
    ExceptionMapSound(s) && EpochsOrdered(s)
  }

  /** Which counter a message is counted in when it is added. */
  datatype Counter = WarningCounter | ErrorCounter | ViolationCounter | NoCounter

  function CounterOf(m: ConsoleMessage): Counter {
    if m.source == MessageSource.Violation then ViolationCounter
    else if m.level == Some(MessageLevel.Warning) then WarningCounter
    else if m.level == Some(MessageLevel.Error) then ErrorCounter
    else NoCounter
  }

  /** The number of messages of `msgs` that belong to counter `c`. */
  function Count(msgs: seq<ConsoleMessage>, c: Counter): nat {
    if msgs == [] then 0
    else Count(msgs[..|msgs| - 1], c) + (if CounterOf(msgs[|msgs| - 1]) == c then 1 else 0)
  }

  /** The counters agree exactly with the messages of the log. */
  ghost predicate CountsExact(s: LogState) {
    s.warnings == Count(s.messages, WarningCounter) &&
    s.errors == Count(s.messages, ErrorCounter) &&
    s.violations == Count(s.messages, ViolationCounter)
  }

  lemma CountAppend(msgs: seq<ConsoleMessage>, m: ConsoleMessage, c: Counter)
    ensures Count(msgs + [m], c) == Count(msgs, c) + (if CounterOf(m) == c then 1 else 0)
  {
    assert (msgs + [m])[..|msgs|] == msgs;
  }

  lemma {:induction false} CountUpdate(msgs: seq<ConsoleMessage>, k: nat, m: ConsoleMessage, c: Counter)
    requires k < |msgs|
    ensures Count(msgs[k := m], c) ==
      Count(msgs, c) - (if CounterOf(msgs[k]) == c then 1 else 0) + (if CounterOf(m) == c then 1 else 0)
  {
    var n := |msgs|;
    if k == n - 1 {
      assert msgs[k := m][..n - 1] == msgs[..n - 1];
    } else {
      CountUpdate(msgs[..n - 1], k, m, c);
      assert msgs[k := m][..n - 1] == msgs[..n - 1][k := m];
    }
  }

  // ----- Transitions -----

  /** `_clear`: empties the log and the exception map and zeroes the counters; the epoch is kept. */
  function AfterClear(s: LogState): (r: Step)
    ensures r.state.messages == [] && r.state.byException == map[]
    ensures r.state.warnings == 0 && r.state.errors == 0 && r.state.violations == 0
    ensures r.state.pageLoadSequenceNumber == s.pageLoadSequenceNumber
    ensures r.events == [ConsoleCleared]
  {
    Step(s.(messages := [], byException := map[], errors := 0, warnings := 0, violations := 0), [ConsoleCleared])
  }

  /** `_clearIfNecessary`: clears unless the log is preserved, and always moves to the next epoch. */
  function AfterClearIfNecessary(s: LogState, preserveLog: bool): (r: Step)
    ensures r.state.pageLoadSequenceNumber == s.pageLoadSequenceNumber + 1
    ensures preserveLog ==> r == Step(s.(pageLoadSequenceNumber := s.pageLoadSequenceNumber + 1), [])
    ensures !preserveLog ==> r.state == AfterClear(s).state.(pageLoadSequenceNumber := s.pageLoadSequenceNumber + 1)
    ensures !preserveLog ==> r.events == [ConsoleCleared]
  {
    var cleared := if !preserveLog then AfterClear(s) else Step(s, []);
    Step(cleared.state.(pageLoadSequenceNumber := cleared.state.pageLoadSequenceNumber + 1), cleared.events)
  }

  /** `_incrementErrorWarningCount`. */
  function AfterIncrement(s: LogState, m: ConsoleMessage): LogState {
    if m.source == MessageSource.Violation then s.(violations := s.violations + 1)
    else if m.level == Some(MessageLevel.Warning) then s.(warnings := s.warnings + 1)
    else if m.level == Some(MessageLevel.Error) then s.(errors := s.errors + 1)
    else s
  }

  /** `modelMap.set(id, k)` on the sub-map of `model`, created when missing. */
  function Register(byException: map<ModelId, map<int, nat>>, model: ModelId, id: int, k: nat): map<ModelId, map<int, nat>> {
    var modelMap := if model in byException then byException[model] else map[];
    byException[model := modelMap[id := k]]
  }

  /** The log with the stamped message appended, its exception id registered and the counters bumped. */
  function Inserted(t: LogState, stamped: ConsoleMessage): LogState {
    var byException :=
      if IsRegistrable(stamped)
      then Register(t.byException, stamped.runtimeModel.value, stamped.exceptionId.value, |t.messages|)
      else t.byException;
    AfterIncrement(t.(messages := t.messages + [stamped], byException := byException), stamped)
  }

  /** The message as `addMessage` stores it: stamped with the epoch current at entry. */
  function Stamped(s: LogState, msg: ConsoleMessage): ConsoleMessage {
    msg.(pageLoadSequenceNumber := Some(s.pageLoadSequenceNumber))
  }

  /** The state after the implicit clear a `console.clear()` message triggers (and `s` for any other message). */
  function BeforeInsert(s: LogState, msg: ConsoleMessage, preserveLog: bool): Step {
    if IsConsoleClear(msg) then AfterClearIfNecessary(s, preserveLog) else Step(s, [])
  }

  /**
   * `addMessage`: stamps the message, performs the implicit clear of a
   * `console.clear()` message, then either hands a sentinel-tagged message to
   * the DiracMessage channel, or appends the message, registers its exception
   * id and bumps the counters.
   */
  function AfterAdd(s: LogState, msg: ConsoleMessage, preserveLog: bool): Step
  {
    var stamped := Stamped(s, msg);
    var pre := BeforeInsert(s, msg, preserveLog);
    var t := pre.state;
    if IsDiracMessage(stamped) then
      Step(t, pre.events + [DiracMessage(stamped)])
    else
      Step(Inserted(t, stamped), pre.events + [MessageAdded(stamped)])
  }

  /**
   * After `addMessage` the log is the old log (empty after an implicit clear
   * without preserveLog) plus the stamped message unless it is a sentinel
   * one; the epoch rises only for a `console.clear()` message.
   */
  lemma AfterAddLog(s: LogState, msg: ConsoleMessage, preserveLog: bool)
    ensures var r := AfterAdd(s, msg, preserveLog);
      var kept := if IsConsoleClear(msg) && !preserveLog then [] else s.messages;
      r.state.messages == (if IsDiracMessage(msg) then kept else kept + [Stamped(s, msg)]) &&
      r.state.pageLoadSequenceNumber == s.pageLoadSequenceNumber + (if IsConsoleClear(msg) then 1 else 0)
  {
  }

  /**
   * `_exceptionRevoked`: an unknown (model, id) changes nothing; a registered
   * one decrements `errors` and demotes its message to verbose in place.
   */
  function AfterRevoke(s: LogState, model: ModelId, id: int): (r: Step)
    requires ExceptionMapSound(s)
    ensures !Registered(s, model, id) ==> r == Step(s, [])
    ensures Registered(s, model, id) ==>
      var k := s.byException[model][id];
      var demoted := s.messages[k].(level := Some(MessageLevel.Verbose));
      r.state.errors == s.errors - 1 && r.state.warnings == s.warnings && r.state.violations == s.violations &&
      r.state.byException == s.byException && r.state.pageLoadSequenceNumber == s.pageLoadSequenceNumber &&
      |r.state.messages| == |s.messages| && r.state.messages[k] == demoted &&
      (forall j :: 0 <= j < |s.messages| && j != k ==> r.state.messages[j] == s.messages[j]) &&
      r.events == [MessageUpdated(demoted)]
  {
    if Registered(s, model, id) then
      var k := s.byException[model][id];
      var demoted := s.messages[k].(level := Some(MessageLevel.Verbose));
      Step(s.(errors := s.errors - 1, messages := s.messages[k := demoted]), [MessageUpdated(demoted)])
    else
      Step(s, [])
  }

  /** `targetRemoved`: drops the removed target's sub-map and nothing else. */
  function AfterTargetRemoved(s: LogState, model: Option<ModelId>): (r: LogState)
    ensures r.messages == s.messages && r.warnings == s.warnings && r.errors == s.errors
    ensures r.violations == s.violations && r.pageLoadSequenceNumber == s.pageLoadSequenceNumber
    ensures model.Some? ==> model.value !in r.byException
    ensures forall m :: m in s.byException && Some(m) != model ==> m in r.byException && r.byException[m] == s.byException[m]
    ensures forall m :: m in r.byException ==> m in s.byException
  {
    if model.Some? then s.(byException := s.byException - {model.value}) else s
  }

  /** `_consoleAPICalled`: the message built from the call, added to the log. */
  function AfterConsoleApiCall(
    s: LogState, model: ModelId, call: ConsoleApiCall, preserveLog: bool, now: int,
    contextForScript: string -> int, contextForStack: StackTrace -> int): Step
  {
    AfterAdd(s, ConsoleApiMessage(model, call, now, contextForScript, contextForStack), preserveLog)
  }

  // ----- Properties of addMessage -----

  /**
   * A sentinel-tagged message is not stored: apart from the implicit clear of a
   * `console.clear()` message, the log, the map and the counters are unchanged.
   */
  lemma DiracMessageNotStored(s: LogState, msg: ConsoleMessage, preserveLog: bool)
    requires IsDiracMessage(msg)
    ensures AfterAdd(s, msg, preserveLog).state == BeforeInsert(s, msg, preserveLog).state
    ensures !IsConsoleClear(msg) ==> AfterAdd(s, msg, preserveLog).state == s
    ensures AfterAdd(s, msg, preserveLog).events ==
      BeforeInsert(s, msg, preserveLog).events + [DiracMessage(Stamped(s, msg))]
  {
  }

  /**
   * A `console.clear()` message leaves the log holding exactly itself when the
   * log is not preserved, and is appended to the old log when it is; in both
   * cases it keeps the epoch current at entry and the epoch moves on by one.
   */
  lemma ClearMessageEffect(s: LogState, msg: ConsoleMessage, preserveLog: bool)
    requires IsConsoleClear(msg) && !IsDiracMessage(msg)
    ensures var r := AfterAdd(s, msg, preserveLog);
      r.state.messages == (if preserveLog then s.messages else []) + [Stamped(s, msg)] &&
      r.state.messages[|r.state.messages| - 1].pageLoadSequenceNumber == Some(s.pageLoadSequenceNumber) &&
      r.state.pageLoadSequenceNumber == s.pageLoadSequenceNumber + 1 &&
      r.events == (if preserveLog then [] else [ConsoleCleared]) + [MessageAdded(Stamped(s, msg))]
  {
  }

  /**
   * The counters after adding a stored message: a violation counts only as a
   * violation, whatever its level; otherwise a warning and an error bump their
   * own counter and any other level none.
   */
  lemma AddMessageCounters(s: LogState, msg: ConsoleMessage, preserveLog: bool)
    requires !IsDiracMessage(msg)
    ensures var base := BeforeInsert(s, msg, preserveLog).state;
      var r := AfterAdd(s, msg, preserveLog).state;
      var violation := msg.source == MessageSource.Violation;
      r.violations == base.violations + (if violation then 1 else 0) &&
      r.warnings == base.warnings + (if !violation && msg.level == Some(MessageLevel.Warning) then 1 else 0) &&
      r.errors == base.errors + (if !violation && msg.level == Some(MessageLevel.Error) then 1 else 0)
  {
  }

  /**
   * Only a stored message with a truthy exception id and a runtime model is
   * registered, at the position it was appended at.
   */
  lemma AddMessageRegistration(s: LogState, msg: ConsoleMessage, preserveLog: bool)
    ensures var base := BeforeInsert(s, msg, preserveLog).state;
      var r := AfterAdd(s, msg, preserveLog).state;
      if !IsDiracMessage(msg) && IsRegistrable(msg) then
        r.byException == Register(base.byException, msg.runtimeModel.value, msg.exceptionId.value, |base.messages|) &&
        r.messages[|base.messages|] == Stamped(s, msg)
      else r.byException == base.byException
  {
  }

  // ----- Invariants kept by every transition -----

  lemma ClearKeepsInv(s: LogState)
    ensures Inv(AfterClear(s).state) && CountsExact(AfterClear(s).state)
  {
  }

  lemma ClearIfNecessaryKeepsInv(s: LogState, preserveLog: bool)
    requires Inv(s)
    ensures Inv(AfterClearIfNecessary(s, preserveLog).state)
    ensures CountsExact(s) ==> CountsExact(AfterClearIfNecessary(s, preserveLog).state)
  {
    var r := AfterClearIfNecessary(s, preserveLog).state;
    forall model, id | Registered(r, model, id) ensures EntrySound(r, model, id) {
      assert Registered(s, model, id) && EntrySound(s, model, id);
    }
  }

  /** The state a stored message is appended to has the message's stamp as its epoch, or is empty. */
  lemma BeforeInsertEpoch(s: LogState, msg: ConsoleMessage, preserveLog: bool)
    requires Inv(s)
    ensures var t := BeforeInsert(s, msg, preserveLog).state;
      Inv(t) && (CountsExact(s) ==> CountsExact(t)) &&
      EpochOf(Stamped(s, msg)) <= t.pageLoadSequenceNumber &&
      (forall i :: 0 <= i < |t.messages| ==> EpochOf(t.messages[i]) <= EpochOf(Stamped(s, msg)))
  {
    ClearIfNecessaryKeepsInv(s, preserveLog);
  }

  lemma AddKeepsEpochs(s: LogState, msg: ConsoleMessage, preserveLog: bool)
    requires Inv(s)
    ensures EpochsOrdered(AfterAdd(s, msg, preserveLog).state)
  {
    BeforeInsertEpoch(s, msg, preserveLog);
    var t := BeforeInsert(s, msg, preserveLog).state;
    var stamped := Stamped(s, msg);
    if !IsDiracMessage(stamped) {
      var r := AfterAdd(s, msg, preserveLog).state;
      assert r.messages == t.messages + [stamped];
      assert r.pageLoadSequenceNumber == t.pageLoadSequenceNumber;
      forall i | 0 <= i < |r.messages|
        ensures r.messages[i].pageLoadSequenceNumber.Some? && EpochOf(r.messages[i]) <= r.pageLoadSequenceNumber
      {
        if i < |t.messages| {
          assert r.messages[i] == t.messages[i];
        }
      }
      forall i, j | 0 <= i < j < |r.messages| ensures EpochOf(r.messages[i]) <= EpochOf(r.messages[j]) {
        assert r.messages[i] == t.messages[i];
        if j < |t.messages| {
          assert r.messages[j] == t.messages[j];
        }
      }
    }
  }

  /** Appending a message, registered or not, to a sound log keeps the exception map sound. */
  lemma AppendKeepsMapSound(t: LogState, stamped: ConsoleMessage, r: LogState)
    requires ExceptionMapSound(t)
    requires r.messages == t.messages + [stamped]
    requires r.byException == if IsRegistrable(stamped)
      then Register(t.byException, stamped.runtimeModel.value, stamped.exceptionId.value, |t.messages|)
      else t.byException
    ensures ExceptionMapSound(r)
  {
    forall model, id | Registered(r, model, id) ensures EntrySound(r, model, id) {
      if IsRegistrable(stamped) && model == stamped.runtimeModel.value && id == stamped.exceptionId.value {
        assert r.byException[model][id] == |t.messages|;
      } else {
        assert Registered(t, model, id) && EntrySound(t, model, id);
        assert r.byException[model][id] == t.byException[model][id];
        assert r.messages[t.byException[model][id]] == t.messages[t.byException[model][id]];
      }
    }
  }

  lemma AddKeepsMapSound(s: LogState, msg: ConsoleMessage, preserveLog: bool)
    requires Inv(s)
    ensures ExceptionMapSound(AfterAdd(s, msg, preserveLog).state)
  {
    BeforeInsertEpoch(s, msg, preserveLog);
    var t := BeforeInsert(s, msg, preserveLog).state;
    var stamped := Stamped(s, msg);
    if !IsDiracMessage(stamped) {
      var r := AfterAdd(s, msg, preserveLog).state;
      assert r.messages == t.messages + [stamped];
      assert r.byException == if IsRegistrable(stamped)
        then Register(t.byException, stamped.runtimeModel.value, stamped.exceptionId.value, |t.messages|)
        else t.byException;
      AppendKeepsMapSound(t, stamped, r);
    }
  }

  lemma AddKeepsCounts(s: LogState, msg: ConsoleMessage, preserveLog: bool)
    requires Inv(s) && CountsExact(s)
    ensures CountsExact(AfterAdd(s, msg, preserveLog).state)
  {
    BeforeInsertEpoch(s, msg, preserveLog);
    var t := BeforeInsert(s, msg, preserveLog).state;
    var stamped := Stamped(s, msg);
    if !IsDiracMessage(stamped) {
      CountAppend(t.messages, stamped, WarningCounter);
      CountAppend(t.messages, stamped, ErrorCounter);
      CountAppend(t.messages, stamped, ViolationCounter);
    }
  }

  lemma AddKeepsInv(s: LogState, msg: ConsoleMessage, preserveLog: bool)
    requires Inv(s)
    ensures Inv(AfterAdd(s, msg, preserveLog).state)
    ensures CountsExact(s) ==> CountsExact(AfterAdd(s, msg, preserveLog).state)
  {
    AddKeepsEpochs(s, msg, preserveLog);
    AddKeepsMapSound(s, msg, preserveLog);
    if CountsExact(s) {
      AddKeepsCounts(s, msg, preserveLog);
    }
  }

  lemma RevokeKeepsInv(s: LogState, model: ModelId, id: int)
    requires Inv(s)
    ensures Inv(AfterRevoke(s, model, id).state)
  {
    if Registered(s, model, id) {
      var r := AfterRevoke(s, model, id).state;
      var k := s.byException[model][id];
      assert forall i :: 0 <= i < |r.messages| ==> EpochOf(r.messages[i]) == EpochOf(s.messages[i]);
      assert forall i :: 0 <= i < |r.messages| ==>
        r.messages[i].runtimeModel == s.messages[i].runtimeModel &&
        r.messages[i].exceptionId == s.messages[i].exceptionId;
      forall model', id' | Registered(r, model', id') ensures EntrySound(r, model', id') {
        assert Registered(s, model', id') && EntrySound(s, model', id');
      }
    }
  }

  lemma TargetRemovedKeepsInv(s: LogState, model: Option<ModelId>)
    requires Inv(s)
    ensures Inv(AfterTargetRemoved(s, model))
    ensures CountsExact(s) ==> CountsExact(AfterTargetRemoved(s, model))
  {
    var r := AfterTargetRemoved(s, model);
    forall m, id | Registered(r, m, id) ensures EntrySound(r, m, id) {
      assert Registered(s, m, id) && EntrySound(s, m, id);
    }
  }

  /**
   * Revoking a registered exception whose message still counts as an error
   * keeps the counters exact.
   */
  lemma RevokeLiveErrorKeepsCounts(s: LogState, model: ModelId, id: int)
    requires Inv(s) && CountsExact(s)
    requires Registered(s, model, id) && CounterOf(s.messages[s.byException[model][id]]) == ErrorCounter
    ensures CountsExact(AfterRevoke(s, model, id).state)
  {
    var k := s.byException[model][id];
    var demoted := s.messages[k].(level := Some(MessageLevel.Verbose));
    assert CounterOf(demoted) == NoCounter;
    CountUpdate(s.messages, k, demoted, WarningCounter);
    CountUpdate(s.messages, k, demoted, ErrorCounter);
    CountUpdate(s.messages, k, demoted, ViolationCounter);
  }

  /**
   * The source does not forget a revoked exception: revoking the same one a
   * second time decrements `errors` again although no error left the log, so
   * the error counter ends one below the number of error messages.
   */
  lemma RepeatedRevokeUndercounts(s: LogState, model: ModelId, id: int)
    requires Inv(s) && CountsExact(s)
    requires Registered(s, model, id) && CounterOf(s.messages[s.byException[model][id]]) == ErrorCounter
    ensures var once := AfterRevoke(s, model, id).state;
      Inv(once) && Registered(once, model, id) &&
      var twice := AfterRevoke(once, model, id).state;
      twice.errors == Count(twice.messages, ErrorCounter) - 1
  {
    RevokeKeepsInv(s, model, id);
    RevokeLiveErrorKeepsCounts(s, model, id);
    var once := AfterRevoke(s, model, id).state;
    var k := s.byException[model][id];
    var demoted := once.messages[k].(level := Some(MessageLevel.Verbose));
    assert demoted == once.messages[k];
    assert once.messages[k := demoted] == once.messages;
  }

  /**
   * The scenario of an uncaught error later revoked: an error reported under
   * exception id 1 counts as one error; revoking it brings the count back to
   * zero and leaves the message in the log at verbose level.
   */
  lemma ErrorThenRevoke(model: ModelId, error: ConsoleMessage)
    requires error.source == MessageSource.JS && error.level == Some(MessageLevel.Error)
    requires error.runtimeModel == Some(model) && error.exceptionId == Some(1)
    requires !IsDiracMessage(error)
    ensures var added := AfterAdd(Initial, error, false).state;
      added.errors == 1 && added.messages == [Stamped(Initial, error)] &&
      Inv(added) &&
      var revoked := AfterRevoke(added, model, 1).state;
      revoked.errors == 0 && |revoked.messages| == 1 &&
      revoked.messages[0].level == Some(MessageLevel.Verbose)
  {
    AddKeepsInv(Initial, error, false);
    var added := AfterAdd(Initial, error, false).state;
    assert Registered(added, model, 1);
  }

  // ----- The imperative model -----

  class ConsoleModel {
    var messages: seq<ConsoleMessage>
    var messageByExceptionId: map<ModelId, map<int, nat>>
    var warnings: int
    var errors: int
    var violations: int
    var pageLoadSequenceNumber: nat

    /** The fields read as a value. */
    function State(): LogState
      reads this
    {
      LogState(messages, messageByExceptionId, warnings, errors, violations, pageLoadSequenceNumber)
    }

    ghost predicate Valid()
      reads this
    {
      Inv(State())
    }

    constructor ()
      ensures Valid() && State() == Initial && CountsExact(State())
    {
      messages := [];
      messageByExceptionId := map[];
      warnings := 0;
      errors := 0;
      violations := 0;
      pageLoadSequenceNumber := 0;
    }

    /** `addMessage`. */
    method AddMessage(msg: ConsoleMessage, preserveLog: bool) returns (events: seq<ConsoleEvent>)
      requires Valid()
      modifies this
      ensures Valid()
      ensures Step(State(), events) == AfterAdd(old(State()), msg, preserveLog)
    {
      ghost var s0 := State();
      ghost var pre := BeforeInsert(s0, msg, preserveLog);
      AddKeepsInv(s0, msg, preserveLog);
      var stamped := msg.(pageLoadSequenceNumber := Some(pageLoadSequenceNumber));
      assert stamped == Stamped(s0, msg);
      events := [];
      if IsConsoleClear(stamped) {
        events := ClearIfNecessary(preserveLog);
      }
      assert Step(State(), events) == pre;
      if IsDiracMessage(stamped) {
        events := events + [DiracMessage(stamped)];
        return;
      }
      InsertMessage(stamped);
      events := events + [MessageAdded(stamped)];
    }

    /** The second half of `addMessage`: the push, the exception map update and the counters. */
    method InsertMessage(stamped: ConsoleMessage)
      modifies this
      ensures State() == Inserted(old(State()), stamped)
    {
      messages := messages + [stamped];
      var runtimeModel := stamped.runtimeModel;
      if IsRegistrable(stamped) {
        var modelMap: map<int, nat> := if runtimeModel.value in messageByExceptionId
          then messageByExceptionId[runtimeModel.value] else map[];
        var index: nat := |messages| - 1;
        modelMap := modelMap[stamped.exceptionId.value := index];
        messageByExceptionId := messageByExceptionId[runtimeModel.value := modelMap];
      }
      IncrementErrorWarningCount(stamped);
    }

    /** `_incrementErrorWarningCount`. */
    method IncrementErrorWarningCount(msg: ConsoleMessage)
      modifies this
      ensures State() == AfterIncrement(old(State()), msg)
    {
      if msg.source == MessageSource.Violation {
        violations := violations + 1;
        return;
      }
      match msg.level
      case Some(Warning) =>
        warnings := warnings + 1;
      case Some(Error) =>
        errors := errors + 1;
      case _ =>
    }

    /** `_exceptionRevoked`. */
    method ExceptionRevoked(runtimeModel: ModelId, exceptionId: int) returns (events: seq<ConsoleEvent>)
      requires Valid()
      modifies this
      ensures Valid()
      ensures Step(State(), events) == AfterRevoke(old(State()), runtimeModel, exceptionId)
    {
      ghost var s0 := State();
      var modelMap: Option<map<int, nat>> :=
        if runtimeModel in messageByExceptionId then Some(messageByExceptionId[runtimeModel]) else None;
      if modelMap.None? || exceptionId !in modelMap.value {
        return [];
      }
      var k := modelMap.value[exceptionId];
      assert Registered(s0, runtimeModel, exceptionId) && EntrySound(s0, runtimeModel, exceptionId);
      errors := errors - 1;
      messages := messages[k := messages[k].(level := Some(MessageLevel.Verbose))];
      events := [MessageUpdated(messages[k])];
      RevokeKeepsInv(s0, runtimeModel, exceptionId);
    }

    /** `_consoleAPICalled`. */
    method ConsoleApiCalled(
      runtimeModel: ModelId, call: ConsoleApiCall, preserveLog: bool, now: int,
      contextForScript: string -> int, contextForStack: StackTrace -> int) returns (events: seq<ConsoleEvent>)
      requires Valid()
      modifies this
      ensures Valid()
      ensures Step(State(), events) ==
        AfterConsoleApiCall(old(State()), runtimeModel, call, preserveLog, now, contextForScript, contextForStack)
    {
      var message := ConsoleApiMessage(runtimeModel, call, now, contextForScript, contextForStack);
      events := AddMessage(message, preserveLog);
    }

    /** `_clearIfNecessary`. */
    method ClearIfNecessary(preserveLog: bool) returns (events: seq<ConsoleEvent>)
      requires Valid()
      modifies this
      ensures Valid()
      ensures Step(State(), events) == AfterClearIfNecessary(old(State()), preserveLog)
    {
      ghost var s0 := State();
      events := [];
      if !preserveLog {
        events := Clear();
      }
      pageLoadSequenceNumber := pageLoadSequenceNumber + 1;
      ClearIfNecessaryKeepsInv(s0, preserveLog);
    }

    /** `_clear` (also the local part of `requestClearMessages`). */
    method Clear() returns (events: seq<ConsoleEvent>)
      modifies this
      ensures Valid()
      ensures Step(State(), events) == AfterClear(old(State()))
    {
      messages := [];
      messageByExceptionId := map[];
      errors := 0;
      warnings := 0;
      violations := 0;
      events := [ConsoleCleared];
    }

    /** `targetRemoved`, for a target whose runtime model is `runtimeModel` (`None` when it has none). */
    method TargetRemoved(runtimeModel: Option<ModelId>)
      requires Valid()
      modifies this
      ensures Valid()
      ensures State() == AfterTargetRemoved(old(State()), runtimeModel)
    {
      ghost var s0 := State();
      if runtimeModel.Some? {
        messageByExceptionId := messageByExceptionId - {runtimeModel.value};
      }
      TargetRemovedKeepsInv(s0, runtimeModel);
    }
  }
}
