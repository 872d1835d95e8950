/**
 * The append-only audit log.  Looking up the actor, sanitizing and writing can each raise; a handler
 * around the lookup and one around the whole recording turn every raise into a warning.
 */
module AuditLog {
  import opened Options
  import opened SensitiveKeys
  import opened Sanitizer

  datatype Action =
    | LoginSuccess | LoginFailure | Logout | Register
    | TokenRefreshed | TokenReuseDetected | TokenBindingMismatch | TokenIpChanged
    | UserUpdate | UserDelete | RoleAssign

  /** What a router captured from the request. */
  datatype Context = Context(
    actor: Option<nat>,
    email: Option<string>,
    ip: Option<string>,
    userAgent: Option<string>,
    requestId: Option<string>)

  /** One call of `record`. */
  datatype Call = Call(
    action: Action,
    context: Context,
    target: Option<nat>,
    success: bool,
    metadata: Option<seq<Entry>>)

  datatype LogEntry = LogEntry(
    action: Action,
    actor: Option<nat>,
    email: Option<string>,
    target: Option<nat>,
    success: bool,
    ip: Option<string>,
    userAgent: Option<string>,
    metadata: seq<Entry>)

  datatype Exception = Exception

  /** Which of the three parts of a recording raise. */
  datatype Fault = Fault(lookupFails: bool, sanitizeFails: bool, writeFails: bool)

  /** What the two handlers log when they have caught an exception. */
  datatype Warning = ActorUnresolved | EventLost(action: Action)

  /** The stored entries and the warnings of the application log. */
  datatype Trail = Trail(entries: seq<LogEntry>, warnings: seq<Warning>)

  /** The emails the actor lookup can find. */
  type Emails = map<nat, string>

  function LookUpEmail(emails: Emails, user: nat, fault: Fault): Result<Option<string>, Exception> {
    if fault.lookupFails then Err(Exception)
    else if user in emails then Ok(Some(emails[user]))
    else Ok(None)
  }

  /** The inner handler: a lookup that raises leaves the context as it was, with a warning. */
  function WithActorEmail(c: Context, emails: Emails, fault: Fault): (Context, seq<Warning>) {
    if c.actor.None? || c.email.Some? then (c, [])
    else
      match LookUpEmail(emails, c.actor.value, fault)
      case Err(_) => (c, [ActorUnresolved])
      case Ok(None) => (c, [])
      case Ok(Some(email)) => (c.(email := Some(email)), [])
  }

  /** `metadata[key] = value` on an ordered dictionary. */
  function SetField(entries: seq<Entry>, key: string, value: Value): seq<Entry> {
    if entries == [] then [Entry(key, value)]
    else if entries[0].key == key then [Entry(key, value)] + entries[1..]
    else [entries[0]] + SetField(entries[1..], key, value)
  }

  function StoredMetadata(call: Call): seq<Entry> {
    var sanitized := if call.metadata.None? then [] else SanitizeMetadata(call.metadata.value);
    if call.context.requestId.None? then sanitized
    else SetField(sanitized, "request_id", Text(call.context.requestId.value))
  }

  function TruncateUserAgent(userAgent: Option<string>): Option<string> {
    if userAgent.None? || userAgent.value == "" then None
    else Some(if |userAgent.value| > 512 then userAgent.value[..512] else userAgent.value)
  }

  function Sanitized(call: Call, fault: Fault): Result<seq<Entry>, Exception> {
    if fault.sanitizeFails then Err(Exception) else Ok(StoredMetadata(call))
  }

  function Written(entries: seq<LogEntry>, entry: LogEntry, fault: Fault): Result<seq<LogEntry>, Exception> {
    if fault.writeFails then Err(Exception) else Ok(entries + [entry])
  }

  function EntryFor(call: Call, context: Context, metadata: seq<Entry>): LogEntry {
    LogEntry(call.action, context.actor, context.email, call.target, call.success,
             context.ip, TruncateUserAgent(context.userAgent), metadata)
  }

  /** The guarded statements of a recording, up to the first one that raises. */
  function Attempt(trail: Trail, call: Call, emails: Emails, fault: Fault): (Trail, Result<(), Exception>) {
    var (context, warnings) := WithActorEmail(call.context, emails, fault);
    var warned := trail.(warnings := trail.warnings + warnings);
    match Sanitized(call, fault)
    case Err(e) => (warned, Err(e))
    case Ok(metadata) =>
      match Written(warned.entries, EntryFor(call, context, metadata), fault)
      case Err(e) => (warned, Err(e))
      case Ok(entries) => (warned.(entries := entries), Ok(()))
  }

  /** The outer handler: the guarded statements, and a warning in place of their exception. */
  function RecordEvent(trail: Trail, call: Call, emails: Emails, fault: Fault): (Trail, Result<(), Exception>) {
    var (tried, outcome) := Attempt(trail, call, emails, fault);
    match outcome
    case Ok(_) => (tried, Ok(()))
    case Err(_) => (tried.(warnings := tried.warnings + [EventLost(call.action)]), Ok(()))
  }

  // ---------------------------------------------------------------- the simple form

  /** The entry is lost. */
  predicate Loses(fault: Fault) {
    fault.sanitizeFails || fault.writeFails
  }

  function ActorEmail(c: Context, emails: Emails, fault: Fault): Option<string> {
    if c.actor.None? || c.email.Some? then c.email
    else if fault.lookupFails || c.actor.value !in emails then None
    else Some(emails[c.actor.value])
  }

  function NewEntry(call: Call, emails: Emails, fault: Fault): LogEntry {
    EntryFor(call, call.context.(email := ActorEmail(call.context, emails, fault)), StoredMetadata(call))
  }

  function Recorded(log: seq<LogEntry>, call: Call, emails: Emails, fault: Fault): seq<LogEntry> {
    if Loses(fault) then log else log + [NewEntry(call, emails, fault)]
  }

  function LostEvents(warnings: seq<Warning>): nat {
    if warnings == [] then 0
    else
      var last := |warnings| - 1;
      LostEvents(warnings[..last]) + if warnings[last].EventLost? then 1 else 0
  }

  lemma WarningAppended(warnings: seq<Warning>, w: Warning)
    ensures LostEvents(warnings + [w]) == LostEvents(warnings) + if w.EventLost? then 1 else 0
  {
    assert (warnings + [w])[..|warnings|] == warnings;
  }

  lemma ContextFilled(c: Context, emails: Emails, fault: Fault)
    ensures
      var (context, warnings) := WithActorEmail(c, emails, fault);
      context == c.(email := ActorEmail(c, emails, fault)) && (warnings == [] || warnings == [ActorUnresolved])
  {
  }

  /** What the guarded statements do: the simple form on the entries, and the inner handler's warning. */
  lemma AttemptWrites(trail: Trail, call: Call, emails: Emails, fault: Fault)
    ensures
      var (after, outcome) := Attempt(trail, call, emails, fault);
      && (outcome.Err? <==> Loses(fault))
      && after.entries == Recorded(trail.entries, call, emails, fault)
      && LostEvents(after.warnings) == LostEvents(trail.warnings)
  {
    ContextFilled(call.context, emails, fault);
    assert trail.warnings + [] == trail.warnings;
    WarningAppended(trail.warnings, ActorUnresolved);
  }

  /**
   * No exception leaves a recording, whichever part raises, and no event vanishes: each call adds
   * either its entry or one warning that it was lost.
   */
  lemma NoRaiseEscapes(trail: Trail, call: Call, emails: Emails, fault: Fault)
    ensures
      var (after, outcome) := RecordEvent(trail, call, emails, fault);
      && outcome == Ok(())
      && after.entries == Recorded(trail.entries, call, emails, fault)
      && |after.entries| + LostEvents(after.warnings) == |trail.entries| + LostEvents(trail.warnings) + 1
      && (Loses(fault) <==> LostEvents(after.warnings) == LostEvents(trail.warnings) + 1)
  {
    AttemptWrites(trail, call, emails, fault);
    WarningAppended(Attempt(trail, call, emails, fault).0.warnings, EventLost(call.action));
  }

  class AuditService {
    var log: seq<LogEntry>
    var warnings: seq<Warning>

    function Current(): Trail
      reads this
    {
      Trail(log, warnings)
    }

    constructor ()
      ensures log == [] && warnings == []
    {
      log, warnings := [], [];
    }

    /** The actor's email where it is missing; a lookup that raises is logged and passed over. */
    method FillActorEmail(c: Context, emails: Emails, fault: Fault) returns (context: Context)
      modifies this`warnings
      ensures
        var (filled, more) := WithActorEmail(c, emails, fault);
        context == filled && warnings == old(warnings) + more
    {
      assert warnings + [] == warnings;
      context := c;
      if c.actor.Some? && c.email.None? {
        match LookUpEmail(emails, c.actor.value, fault) {
          case Err(_) => warnings := warnings + [ActorUnresolved];
          case Ok(None) =>
          case Ok(Some(email)) => context := c.(email := Some(email));
        }
      }
    }

    /** The insert into the log table, or the exception of the database. */
    method Store(entry: LogEntry, fault: Fault) returns (stored: Result<(), Exception>)
      modifies this`log
      ensures stored == if fault.writeFails then Err(Exception) else Ok(())
      ensures log == if stored.Ok? then old(log) + [entry] else old(log)
    {
      if fault.writeFails { return Err(Exception); }
      log := log + [entry];
      stored := Ok(());
    }

    /** The statements inside the outer handler; an exception cuts them short. */
    method TryRecord(call: Call, emails: Emails, fault: Fault) returns (outcome: Result<(), Exception>)
      modifies this
      ensures (Current(), outcome) == Attempt(old(Current()), call, emails, fault)
    {
      ContextFilled(call.context, emails, fault);
      var context := FillActorEmail(call.context, emails, fault);
      if fault.sanitizeFails { return Err(Exception); }
      var metadata := if call.metadata.None? then [] else SanitizeMetadata(call.metadata.value);
      if context.requestId.Some? {
        metadata := SetField(metadata, "request_id", Text(context.requestId.value));
      }
      assert metadata == StoredMetadata(call);
      outcome := Store(EntryFor(call, context, metadata), fault);
    }

    /** What is left of the exception after the outer handler: nothing. */
    method Record(call: Call, emails: Emails, fault: Fault) returns (outcome: Result<(), Exception>)
      modifies this
      ensures (Current(), outcome) == RecordEvent(old(Current()), call, emails, fault)
      ensures outcome == Ok(()) && log == Recorded(old(log), call, emails, fault)
    {
      NoRaiseEscapes(Current(), call, emails, fault);
      outcome := TryRecord(call, emails, fault);
      match outcome {
        case Ok(_) =>
        case Err(_) =>
          warnings := warnings + [EventLost(call.action)];
          outcome := Ok(());
      }
    }
  }

  lemma {:induction false} FieldOfSet(entries: seq<Entry>, key: string, value: Value, other: string)
    ensures FieldOf(SetField(entries, key, value), other) ==
              if other == key then Some(value) else FieldOf(entries, other)
  {
    if entries != [] && entries[0].key != key {
      FieldOfSet(entries[1..], key, value, other);
      assert SetField(entries, key, value)[1..] == SetField(entries[1..], key, value);
    }
  }

  /** The email an entry carries: the one of the context, or else the one the lookup finds. */
  ghost predicate EmailFilled(email: Option<string>, c: Context, emails: Emails, fault: Fault) {
    && (c.email.Some? ==> email == c.email)
    && (c.email.None? ==>
          if c.actor.Some? && !fault.lookupFails && c.actor.value in emails then email == Some(emails[c.actor.value])
          else email == None)
  }

  /** The user agent is cut to 512 characters, and an empty one is dropped. */
  ghost predicate AgentCut(stored: Option<string>, given: Option<string>) {
    if given.None? || given.value == "" then stored == None
    else
      && stored.Some? && stored.value <= given.value
      && |stored.value| == if |given.value| < 512 then |given.value| else 512
  }

  /**
   * A recording in which neither the sanitization nor the write raises appends exactly one entry.  It
   * says of the call what was done, by whom, to whom, from where and with what outcome; the request id
   * is in its metadata.
   */
  lemma EntryTellsCall(trail: Trail, call: Call, emails: Emails, fault: Fault)
    requires !fault.sanitizeFails && !fault.writeFails
    ensures
      var after := RecordEvent(trail, call, emails, fault).0.entries;
      && |after| == |trail.entries| + 1 && after[..|trail.entries|] == trail.entries
      && var entry := after[|trail.entries|];
         && entry.action == call.action && entry.actor == call.context.actor && entry.target == call.target
         && entry.success == call.success && entry.ip == call.context.ip
         && EmailFilled(entry.email, call.context, emails, fault)
         && AgentCut(entry.userAgent, call.context.userAgent)
         && (call.context.requestId.Some? ==>
               FieldOf(entry.metadata, "request_id") == Some(Text(call.context.requestId.value)))
         && entry.metadata == StoredMetadata(call)
  {
    NoRaiseEscapes(trail, call, emails, fault);
    var sanitized := if call.metadata.None? then [] else SanitizeMetadata(call.metadata.value);
    if call.context.requestId.Some? {
      FieldOfSet(sanitized, "request_id", Text(call.context.requestId.value), "request_id");
    }
  }

  /**
   * The warnings of a recording: one when the lookup of a missing email raises, and one in place of an
   * entry that was lost.
   */
  lemma WarningsTell(trail: Trail, call: Call, emails: Emails, fault: Fault)
    ensures
      var unresolved := call.context.actor.Some? && call.context.email.None? && fault.lookupFails;
      RecordEvent(trail, call, emails, fault).0.warnings ==
        trail.warnings + (if unresolved then [ActorUnresolved] else []) +
        (if fault.sanitizeFails || fault.writeFails then [EventLost(call.action)] else [])
  {
  }

  /** A stored entry answers for a metadata key what the caller passed, unless the key is sensitive. */
  lemma StoredField(call: Call, key: string)
    requires key != "request_id"
    ensures FieldOf(StoredMetadata(call), key) ==
              match (if call.metadata.None? then None else FieldOf(call.metadata.value, key))
              case Some(value) => if IsSensitive(key) then None else Some(SanitizeValue(value))
              case None => None
  {
    if call.metadata.Some? { FieldOfSanitized(call.metadata.value, key); }
    if call.context.requestId.Some? {
      var sanitized := if call.metadata.None? then [] else SanitizeMetadata(call.metadata.value);
      FieldOfSet(sanitized, "request_id", Text(call.context.requestId.value), key);
    }
  }
}
