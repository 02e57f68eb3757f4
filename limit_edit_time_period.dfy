/**
 * The PcLimitEditTimePeriod behaviour as an object: its configuration fields, the
 * cached "created on" value, and the log and render calls as ghost sequences.
 * Each method is proved against the pure definitions of EditWindow.
 */
module EditTimeLimit {
  import opened Wrappers
  import opened EditWindow

  class PcLimitEditTimePeriod {
    /** Edit window length, in minutes. */
    var timeout: int
    /** Message shown on a denial; None stands for PHP's `false` (no custom message). */
    var message: Option<string>
    /** Name of the owner's attribute that holds the creation time. */
    var createdOnAttrName: string
    /** Whether validation failures are logged. */
    var useLogging: bool
    /** Cached value of the owner's "created on" attribute; None until first read. */
    var ownerCreatedOnValue: Option<Value>
    const defaultMessage: string := DefaultMessage

    /** The host record; no method of the behaviour writes it. */
    var owner: Record
    /** The date parser behind `new DateTime(...)`. */
    const parse: Parser

    /** Error entries passed to `Yii::log`, oldest first. */
    ghost var logs: seq<LogEntry>
    /** Messages passed to the controller's render of the timeout view, oldest first. */
    ghost var renders: seq<string>

    /** Attaches a behaviour with the default configuration to `owner`. */
    constructor (owner: Record, parse: Parser)
      ensures this.owner == owner && this.parse == parse
      ensures timeout == DefaultTimeoutMinutes && message == None
      ensures createdOnAttrName == DefaultCreatedOnAttrName && useLogging
      ensures ownerCreatedOnValue == None
      ensures logs == [] && renders == []
    {
      this.owner := owner;
      this.parse := parse;
      timeout := DefaultTimeoutMinutes;
      message := None;
      createdOnAttrName := DefaultCreatedOnAttrName;
      useLogging := true;
      ownerCreatedOnValue := None;
      logs := [];
      renders := [];
    }

    /** `_validateCreatedOnAttribute`: the attribute exists, else log (if enabled) and fail. */
    method ValidateCreatedOnAttribute() returns (ok: bool)
      modifies this`logs
      ensures ok <==> createdOnAttrName in owner
      ensures logs == old(logs) + (if !ok && useLogging then [MissingAttributeLog(createdOnAttrName)] else [])
    {
      if createdOnAttrName in owner {
        return true;
      }
      if useLogging {
        logs := logs + [MissingAttributeLog(createdOnAttrName)];
      }
      return false;
    }

    /** `_initializeInternalAttributes`: cache the owner's "created on" value. */
    method InitializeInternalAttributes()
      requires createdOnAttrName in owner
      modifies this`ownerCreatedOnValue
      ensures ownerCreatedOnValue == Some(owner[createdOnAttrName])
    {
      ownerCreatedOnValue := Some(owner[createdOnAttrName]);
    }

    /**
     * `_validateCreateOnValue`: the attribute exists and holds an integer or a
     * string the parser accepts; a failure is logged (if enabled) once.
     */
    method ValidateCreateOnValue() returns (ok: bool)
      modifies this`logs, this`ownerCreatedOnValue
      ensures ok <==> Classify(owner, createdOnAttrName, parse).ValidValue?
      ensures logs == old(logs) + ValidationLog(Classify(owner, createdOnAttrName, parse), createdOnAttrName, useLogging)
      ensures ownerCreatedOnValue ==
                if createdOnAttrName in owner then Some(owner[createdOnAttrName]) else old(ownerCreatedOnValue)
    {
      var present := ValidateCreatedOnAttribute();
      if present {
        InitializeInternalAttributes();
      } else {
        return false;
      }
      if ownerCreatedOnValue.value.IntV? {
        return true;
      }
      // real DateTime throws rather than yield false; the source tests for false
      if parse(ownerCreatedOnValue.value.text).Some? {
        return true;
      }
      if useLogging {
        logs := logs + [InvalidValueLog(ownerCreatedOnValue.value)];
      }
      return false;
    }

    /** `isEditAllowed`, evaluated with the clock reading `now`. */
    method IsEditAllowed(now: int) returns (allowed: bool)
      modifies this`logs, this`ownerCreatedOnValue
      ensures allowed == EditAllowed(owner, createdOnAttrName, timeout, parse, now)
      ensures logs == old(logs) + ValidationLog(Classify(owner, createdOnAttrName, parse), createdOnAttrName, useLogging)
      ensures ownerCreatedOnValue ==
                if createdOnAttrName in owner then Some(owner[createdOnAttrName]) else old(ownerCreatedOnValue)
    {
      var valid := ValidateCreateOnValue();
      if !valid {
        // fail open: the error has been logged by the validation
        return true;
      }
      var timestamp: int;
      if !ownerCreatedOnValue.value.IntV? {
        timestamp := parse(ownerCreatedOnValue.value.text).value;
      } else {
        timestamp := ownerCreatedOnValue.value.seconds;
      }
      allowed := timestamp + timeout * SecondsPerMinute >= now;
    }

    /**
     * `disallowEditIfExpired`: on a denial, settle the message (the default one
     * when none is configured) and render it; otherwise do nothing.
     */
    method DisallowEditIfExpired(now: int)
      modifies this`logs, this`ownerCreatedOnValue, this`message, this`renders
      ensures var e := DenialStep(old(message), !EditAllowed(owner, createdOnAttrName, timeout, parse, now));
        message == e.message && renders == old(renders) + e.rendered
      // validation runs again inside isEditAllowed, but at most one error is logged
      ensures logs == old(logs) + ValidationLog(Classify(owner, createdOnAttrName, parse), createdOnAttrName, useLogging)
      ensures ownerCreatedOnValue ==
                if createdOnAttrName in owner then Some(owner[createdOnAttrName]) else old(ownerCreatedOnValue)
    {
      var valid := ValidateCreateOnValue();
      if !valid {
        return;
      }
      var allowed := IsEditAllowed(now);
      if !allowed {
        if message == None {
          message := Some(defaultMessage);
        }
        renders := renders + [message.value];
      }
    }
  }

  /** Two denials in a row with no configured message: both render the default text. */
  method DeniedTwice(owner: Record, parse: Parser, now: int)
    requires DefaultCreatedOnAttrName in owner && owner[DefaultCreatedOnAttrName].IntV?
    requires owner[DefaultCreatedOnAttrName].seconds + DefaultTimeoutMinutes * SecondsPerMinute < now
  {
    var b := new PcLimitEditTimePeriod(owner, parse);
    b.DisallowEditIfExpired(now);
    b.DisallowEditIfExpired(now + 1);
    assert b.renders == [DefaultMessage, DefaultMessage];
    assert b.message == Some(DefaultMessage) && b.logs == [];
    assert b.owner == owner;
  }
}
