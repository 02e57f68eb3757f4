/**
 * The edit-window rule of the PcLimitEditTimePeriod behaviour, as pure functions:
 * how the "created on" attribute of the host record is validated, whether an edit
 * is allowed at a given moment, and what a denial does to the behaviour's message.
 * The class in EditTimeLimit is proved against these definitions.
 */
module EditWindow {
  import opened Wrappers

  /** A value of a host-record attribute: a PHP integer or a string. */
  datatype Value = IntV(seconds: int) | StrV(text: string)

  /** The host record (the behaviour's owner): attribute name to value. */
  type Record = map<string, Value>

  /**
   * The date parser (`new DateTime(...)` followed by `getTimestamp()`): epoch
   * seconds, or None where the source expects `false`. Real PHP throws on bad
   * input instead of returning false, so the None branch is never reached there;
   * the model keeps that branch as the source writes it.
   */
  type Parser = string -> Option<int>

  /** One error entry written by `Yii::log` (message formatting is not modelled). */
  datatype LogEntry =
    | MissingAttributeLog(attrName: string)
    | InvalidValueLog(value: Value)

  const SecondsPerMinute: int := 60
  const DefaultTimeoutMinutes: int := 60
  const DefaultCreatedOnAttrName: string := "created_on"
  const DefaultMessage: string := "Sorry - edit timeout has expired. Editing is not possible."

  /** Last second (epoch) at which editing is still allowed. */
  function Deadline(created: int, timeoutMinutes: int): int
  {
    created + timeoutMinutes * SecondsPerMinute
  }

  /** The time-window comparison: the deadline has not passed yet. */
  function Allowed(created: int, timeoutMinutes: int, now: int): (r: bool)
    // the seconds elapsed since creation fit in the window, boundary included
    ensures r <==> now - created <= timeoutMinutes * SecondsPerMinute
  {
    Deadline(created, timeoutMinutes) >= now
  }

  /** Outcome of validating the owner's "created on" attribute. */
  datatype Validation =
    | MissingAttribute
    | UnparseableValue(value: Value)
    | ValidValue(value: Value, timestamp: int)

  /**
   * `_validateCreatedOnAttribute` followed by `_validateCreateOnValue`'s checks,
   * together with the timestamp `isEditAllowed` then derives from the value.
   */
  function Classify(owner: Record, attrName: string, parse: Parser): (c: Validation)
    ensures c.MissingAttribute? <==> attrName !in owner
    ensures !c.MissingAttribute? ==> c.value == owner[attrName]
    ensures c.UnparseableValue? <==>
              attrName in owner && owner[attrName].StrV? && parse(owner[attrName].text).None?
    // an integer is the timestamp itself, whatever the parser would say
    ensures attrName in owner && owner[attrName].IntV? ==>
              c == ValidValue(owner[attrName], owner[attrName].seconds)
    ensures c.ValidValue? && c.value.StrV? ==> parse(c.value.text) == Some(c.timestamp)
  {
    if attrName !in owner then MissingAttribute
    else
      match owner[attrName]
      case IntV(t) => ValidValue(owner[attrName], t)
      case StrV(s) =>
        match parse(s)
        case None => UnparseableValue(owner[attrName])
        case Some(t) => ValidValue(owner[attrName], t)
  }

  /** Entries one validation appends to the log. */
  function ValidationLog(c: Validation, attrName: string, useLogging: bool): (entries: seq<LogEntry>)
    ensures |entries| <= 1
    ensures entries != [] <==> useLogging && !c.ValidValue?
    ensures c.MissingAttribute? && useLogging ==> entries == [MissingAttributeLog(attrName)]
    ensures c.UnparseableValue? && useLogging ==> entries == [InvalidValueLog(c.value)]
  {
    if !useLogging then []
    else
      match c
      case MissingAttribute => [MissingAttributeLog(attrName)]
      case UnparseableValue(v) => [InvalidValueLog(v)]
      case ValidValue(_, _) => []
  }

  /** `isEditAllowed`: fail open on a failed validation, else the window check. */
  function EditAllowed(owner: Record, attrName: string, timeoutMinutes: int, parse: Parser, now: int): (r: bool)
    ensures attrName !in owner ==> r
    ensures attrName in owner && owner[attrName].StrV? && parse(owner[attrName].text).None? ==> r
    ensures attrName in owner && owner[attrName].IntV? ==>
              (r <==> owner[attrName].seconds + timeoutMinutes * SecondsPerMinute >= now)
    ensures attrName in owner && owner[attrName].StrV? && parse(owner[attrName].text).Some? ==>
              (r <==> parse(owner[attrName].text).value + timeoutMinutes * SecondsPerMinute >= now)
    // a refusal only ever follows a successful validation
    ensures !r ==> Classify(owner, attrName, parse).ValidValue?
  {
    match Classify(owner, attrName, parse)
    case ValidValue(_, t) => Allowed(t, timeoutMinutes, now)
    case _ => true
  }

  /** What one `disallowEditIfExpired` leaves behind: the message field and the renders. */
  datatype DenialEffect = DenialEffect(message: Option<string>, rendered: seq<string>)

  /** The effect on `message` and on the renders of a call that is (or is not) a denial. */
  function DenialStep(message: Option<string>, denied: bool): (e: DenialEffect)
    ensures |e.rendered| == if denied then 1 else 0
    ensures forall i :: 0 <= i < |e.rendered| ==> e.rendered[i] == message.GetOr(DefaultMessage)
    // a configured message, or no denial, leaves the field as it was
    ensures message.Some? || !denied ==> e.message == message
    ensures message.None? && denied ==> e.message == Some(DefaultMessage)
  {
    if !denied then DenialEffect(message, [])
    else
      var m := if message.None? then Some(DefaultMessage) else message;
      DenialEffect(m, [m.value])
  }

  /** One later call of `disallowEditIfExpired`: the host record then and the clock then. */
  datatype Call = Call(owner: Record, now: int)

  /** Whether a call is a denial: the window check fails (validation succeeded). */
  predicate Denied(call: Call, attrName: string, timeoutMinutes: int, parse: Parser)
  {
    !EditAllowed(call.owner, attrName, timeoutMinutes, parse, call.now)
  }

  /** Number of denials in a series of calls. */
  function DenialCount(calls: seq<Call>, attrName: string, timeoutMinutes: int, parse: Parser): nat
  {
    if calls == [] then 0
    else (if Denied(calls[0], attrName, timeoutMinutes, parse) then 1 else 0)
         + DenialCount(calls[1..], attrName, timeoutMinutes, parse)
  }

  /**
   * The message field and all renders after a series of `disallowEditIfExpired`
   * calls: one render per denial, always the same string (the configured message,
   * or the default one, which then stays in the message field for good).
   */
  function DenialRun(message: Option<string>, calls: seq<Call>, attrName: string,
                     timeoutMinutes: int, parse: Parser): (e: DenialEffect)
    ensures |e.rendered| == DenialCount(calls, attrName, timeoutMinutes, parse)
    ensures forall i :: 0 <= i < |e.rendered| ==> e.rendered[i] == message.GetOr(DefaultMessage)
    ensures e.message == (if e.rendered == [] then message else Some(message.GetOr(DefaultMessage)))
    decreases |calls|
  {
    if calls == [] then DenialEffect(message, [])
    else
      var first := DenialStep(message, Denied(calls[0], attrName, timeoutMinutes, parse));
      var rest := DenialRun(first.message, calls[1..], attrName, timeoutMinutes, parse);
      assert forall i :: |first.rendered| <= i < |first.rendered| + |rest.rendered| ==>
        (first.rendered + rest.rendered)[i] == rest.rendered[i - |first.rendered|];
      DenialEffect(rest.message, first.rendered + rest.rendered)
  }

  /** The boundary is inclusive: editable at the deadline, refused one second later. */
  lemma InclusiveBoundary(created: int, timeoutMinutes: int)
    ensures Allowed(created, timeoutMinutes, Deadline(created, timeoutMinutes))
    ensures !Allowed(created, timeoutMinutes, Deadline(created, timeoutMinutes) + 1)
  {
  }

  /** Once the window has closed it stays closed as the clock advances. */
  lemma ExpiryIsPermanent(owner: Record, attrName: string, timeoutMinutes: int, parse: Parser,
                          now: int, later: int)
    requires now <= later
    requires !EditAllowed(owner, attrName, timeoutMinutes, parse, now)
    ensures !EditAllowed(owner, attrName, timeoutMinutes, parse, later)
  {
  }

  /** An integer creation value never reaches the parser: any two parsers agree. */
  lemma IntegerBypassesParser(owner: Record, attrName: string, timeoutMinutes: int,
                              p: Parser, q: Parser, now: int)
    requires attrName in owner && owner[attrName].IntV?
    ensures Classify(owner, attrName, p) == Classify(owner, attrName, q)
    ensures EditAllowed(owner, attrName, timeoutMinutes, p, now)
        == EditAllowed(owner, attrName, timeoutMinutes, q, now)
  {
  }

  /** The two worked examples of a 60-minute window. */
  lemma HourWindowExamples(owner: Record, attrName: string, parse: Parser, now: int)
    ensures !EditAllowed(owner[attrName := IntV(now - 3661)], attrName, 60, parse, now)
    ensures EditAllowed(owner[attrName := IntV(now - 3599)], attrName, 60, parse, now)
  {
  }

  /**
   * `isEditAllowed` as PHP runs it: `new DateTime(...)` throws on a string it cannot
   * parse instead of returning false, so an unparseable value escapes as an exception
   * and the documented fail-open branch is never taken.
   */
  datatype Outcome = Returned(allowed: bool) | Thrown

  function EditAllowedAsWritten(owner: Record, attrName: string, timeoutMinutes: int,
                                parse: Parser, now: int): (r: Outcome)
    ensures r.Thrown? <==> Classify(owner, attrName, parse).UnparseableValue?
    ensures r.Returned? ==> r.allowed == EditAllowed(owner, attrName, timeoutMinutes, parse, now)
  {
    match Classify(owner, attrName, parse)
    case UnparseableValue(_) => Thrown
    case MissingAttribute => Returned(true)
    case ValidValue(_, t) => Returned(Allowed(t, timeoutMinutes, now))
  }

  /** A creation value of "not-a-date": PHP throws, the intended rule allows the edit. */
  lemma NotADateThrows(parse: Parser, now: int)
    requires parse("not-a-date").None?
    ensures var owner := map[DefaultCreatedOnAttrName := StrV("not-a-date")];
      && EditAllowedAsWritten(owner, DefaultCreatedOnAttrName, DefaultTimeoutMinutes, parse, now) == Thrown
      && EditAllowed(owner, DefaultCreatedOnAttrName, DefaultTimeoutMinutes, parse, now)
  {
  }
}
