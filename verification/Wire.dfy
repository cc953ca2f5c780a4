/** The client protocol's form of a draft, and the bounded constructors it goes through. */
module Wire {
  import opened Wrappers
  import opened Utf8
  import opened Notifications
  import opened PlainText

  const MAX_TITLE_BYTES := 1024
  const MAX_BODY_BYTES := 48 * 1024
  const MAX_KEY_BYTES := 1024
  const MAX_SOURCE_ID_BYTES := 256
  const MAX_SOURCE_VALUE_BYTES := 1024
  const MAX_CWD_BYTES := 4096
  const MAX_METADATA_VALUE_BYTES := 1024
  const MILLISECOND: Duration := 1_000_000
  const U64_MAX := 0xFFFF_FFFF_FFFF_FFFF

  datatype IngressError =
    | ValueTooLarge(actual: nat, maximum: nat)
    | EmptyValue | InvalidTmuxId | AttentionRequiresSource | IncompleteProviderSource

  datatype WireDraft = WireDraft(
    key: Option<string>,
    level: Level,
    priority: Priority,
    presentation: Presentation,
    title: string,
    body: string,
    timeoutMs: Option<nat>,
    source: Option<SourceContext>,
    position: Option<Placement>,
    metadata: Metadata)

  // ---------- bounded constructors ----------

  function NormalizeBounded(value: string, maximum: nat): Result<string, IngressError> {
    var normalized := Normalized(value);
    if ByteLength(normalized) > maximum then Err(ValueTooLarge(ByteLength(normalized), maximum)) else Ok(normalized)
  }

  function NormalizeRequired(value: string, maximum: nat): Result<string, IngressError> {
    match NormalizeBounded(value, maximum)
    case Err(e) => Err(e)
    case Ok("") => Err(EmptyValue)
    case Ok(s) => Ok(s)
  }

  predicate AllDigits(s: string) {
    forall c :: c in s ==> '0' <= c <= '9'
  }

  function StableTmuxId(value: string, prefix: char): Result<string, IngressError> {
    if ByteLength(value) > MAX_SOURCE_ID_BYTES then Err(ValueTooLarge(ByteLength(value), MAX_SOURCE_ID_BYTES))
    else if value == "" || value[0] != prefix || value[1..] == "" || !AllDigits(value[1..]) then Err(InvalidTmuxId)
    else Ok(value)
  }

  function Optionally(value: Option<string>, maximum: nat): Result<Option<string>, IngressError> {
    match value
    case None => Ok(None)
    case Some(v) =>
      match NormalizeRequired(v, maximum)
      case Ok(s) => Ok(Some(s))
      case Err(e) => Err(e)
  }

  function OptionallyEmpty(value: Option<string>, maximum: nat): Result<Option<string>, IngressError> {
    match value
    case None => Ok(None)
    case Some(v) =>
      match NormalizeBounded(v, maximum)
      case Ok(s) => Ok(Some(s))
      case Err(e) => Err(e)
  }

  // ---------- wire to domain ----------

  /** The wire form of a source has the domain form's fields, unchecked. */
  function SourceIntoDomain(w: SourceContext): Result<SourceContext, IngressError> {
    match NormalizeRequired(w.tmuxServerId, MAX_SOURCE_ID_BYTES)
    case Err(e) => Err(e)
    case Ok(server) =>
    match StableTmuxId(w.sessionId, '$')
    case Err(e) => Err(e)
    case Ok(session) =>
    match StableTmuxId(w.windowId, '@')
    case Err(e) => Err(e)
    case Ok(window) =>
    match StableTmuxId(w.paneId, '%')
    case Err(e) => Err(e)
    case Ok(pane) =>
    if w.provider.Some? != w.providerSessionId.Some? then Err(IncompleteProviderSource)
    else
    match Optionally(w.providerSessionId, MAX_SOURCE_VALUE_BYTES)
    case Err(e) => Err(e)
    case Ok(providerSession) =>
    match Optionally(w.cwd, MAX_CWD_BYTES)
    case Err(e) => Err(e)
    case Ok(cwd) =>
    match Optionally(w.command, MAX_SOURCE_VALUE_BYTES)
    case Err(e) => Err(e)
    case Ok(command) =>
    match OptionallyEmpty(w.paneTitle, MAX_SOURCE_VALUE_BYTES)
    case Err(e) => Err(e)
    case Ok(title) =>
      Ok(SourceContext(w.provider, providerSession, server, session, window, pane, cwd, command, title))
  }

  function MetadataIntoDomain(w: Metadata): Result<Metadata, IngressError> {
    match Optionally(w.agentName, MAX_METADATA_VALUE_BYTES)
    case Err(e) => Err(e)
    case Ok(agent) =>
    match Optionally(w.toolName, MAX_METADATA_VALUE_BYTES)
    case Err(e) => Err(e)
    case Ok(tool) => Ok(Metadata(w.agentEventKind, agent, tool))
  }

  function WireTimeout(ms: Option<nat>): Timeout {
    match ms case Some(n) => After(n * MILLISECOND) case None => NeverExpires
  }

  function OptionalSource(w: Option<SourceContext>): Result<Option<SourceContext>, IngressError> {
    match w
    case None => Ok(None)
    case Some(s) =>
      match SourceIntoDomain(s)
      case Ok(d) => Ok(Some(d))
      case Err(e) => Err(e)
  }

  /** `NotificationDraft::new` and the builders, in the order the conversion calls them. */
  function IntoDomain(w: WireDraft): Result<Draft, IngressError> {
    match OptionalSource(w.source)
    case Err(e) => Err(e)
    case Ok(source) =>
    if w.presentation == Attention && source.None? then Err(AttentionRequiresSource)
    else
    match NormalizeBounded(w.title, MAX_TITLE_BYTES)
    case Err(e) => Err(e)
    case Ok(title) =>
    match NormalizeBounded(w.body, MAX_BODY_BYTES)
    case Err(e) => Err(e)
    case Ok(body) =>
    match Optionally(w.key, MAX_KEY_BYTES)
    case Err(e) => Err(e)
    case Ok(key) =>
    match MetadataIntoDomain(w.metadata)
    case Err(e) => Err(e)
    case Ok(metadata) =>
      Ok(Content(key, w.level, w.priority, w.presentation, title, body,
                 if w.presentation == Attention then NeverExpires else WireTimeout(w.timeoutMs),
                 source, w.position, metadata))
  }

  // ---------- domain to wire ----------

  function TimeoutMillis(t: Timeout): Option<nat> {
    match t
    case After(d) => Some(if d / MILLISECOND <= U64_MAX then d / MILLISECOND else U64_MAX)
    case NeverExpires => None
  }

  function FromDomain(d: Draft): WireDraft {
    WireDraft(d.key, d.level, d.priority, d.presentation, d.title, d.body, TimeoutMillis(d.timeout), d.source,
              d.position, d.metadata)
  }

  // ---------- what the constructors guarantee ----------

  predicate Bounded(s: string, maximum: nat) {
    Clean(s) && ByteLength(s) <= maximum
  }

  predicate Required(s: string, maximum: nat) {
    Bounded(s, maximum) && s != ""
  }

  predicate OptionalText(s: Option<string>, maximum: nat) {
    s.Some? ==> Required(s.value, maximum)
  }

  predicate TmuxId(s: string, prefix: char) {
    ByteLength(s) <= MAX_SOURCE_ID_BYTES && |s| > 1 && s[0] == prefix && AllDigits(s[1..])
  }

  predicate BuiltSource(s: SourceContext) {
    && Required(s.tmuxServerId, MAX_SOURCE_ID_BYTES)
    && TmuxId(s.sessionId, '$') && TmuxId(s.windowId, '@') && TmuxId(s.paneId, '%')
    && (s.provider.Some? <==> s.providerSessionId.Some?)
    && OptionalText(s.providerSessionId, MAX_SOURCE_VALUE_BYTES)
    && OptionalText(s.cwd, MAX_CWD_BYTES) && OptionalText(s.command, MAX_SOURCE_VALUE_BYTES)
    && (s.paneTitle.Some? ==> Bounded(s.paneTitle.value, MAX_SOURCE_VALUE_BYTES))
  }

  /** Every draft that crossed the constructors. */
  predicate Built(d: Draft) {
    && Bounded(d.title, MAX_TITLE_BYTES) && Bounded(d.body, MAX_BODY_BYTES)
    && OptionalText(d.key, MAX_KEY_BYTES)
    && (d.source.Some? ==> BuiltSource(d.source.value))
    && OptionalText(d.metadata.agentName, MAX_METADATA_VALUE_BYTES)
    && OptionalText(d.metadata.toolName, MAX_METADATA_VALUE_BYTES)
  }

  /** The timeouts milliseconds can carry. */
  predicate WholeMillis(t: Timeout) {
    t.After? ==> t.duration % MILLISECOND == 0 && t.duration / MILLISECOND <= U64_MAX
  }

  // ---------- what is accepted, and as what ----------

  /** The text fits once it is normalized, and is then not empty if it has to say something. */
  predicate Fit(s: string, maximum: nat, needed: bool) {
    ByteLength(Normalized(s)) <= maximum && (needed ==> Normalized(s) != "")
  }

  predicate OptionalFit(s: Option<string>, maximum: nat, needed: bool) {
    s.Some? ==> Fit(s.value, maximum, needed)
  }

  /** The same text, normalized. */
  predicate Tidied(before: Option<string>, after: Option<string>) {
    before.Some? == after.Some? && (before.Some? ==> after.value == Normalized(before.value))
  }

  predicate AcceptableSource(s: SourceContext) {
    && Fit(s.tmuxServerId, 256, true)
    && TmuxId(s.sessionId, '$') && TmuxId(s.windowId, '@') && TmuxId(s.paneId, '%')
    && s.provider.Some? == s.providerSessionId.Some?
    && OptionalFit(s.providerSessionId, 1024, true) && OptionalFit(s.cwd, 4096, true)
    && OptionalFit(s.command, 1024, true) && OptionalFit(s.paneTitle, 1024, false)
  }

  predicate SourceTidied(w: SourceContext, d: SourceContext) {
    && d.provider == w.provider && Tidied(w.providerSessionId, d.providerSessionId)
    && d.tmuxServerId == Normalized(w.tmuxServerId)
    && d.sessionId == w.sessionId && d.windowId == w.windowId && d.paneId == w.paneId
    && Tidied(w.cwd, d.cwd) && Tidied(w.command, d.command) && Tidied(w.paneTitle, d.paneTitle)
  }

  lemma OptionalTidied(value: Option<string>, maximum: nat)
    ensures match Optionally(value, maximum)
            case Ok(s) => OptionalFit(value, maximum, true) && Tidied(value, s)
            case Err(_) => !OptionalFit(value, maximum, true)
    ensures match OptionallyEmpty(value, maximum)
            case Ok(s) => OptionalFit(value, maximum, false) && Tidied(value, s)
            case Err(_) => !OptionalFit(value, maximum, false)
  {
    hide Normalized, ByteLength;
  }

  lemma RequiredTidied(value: string, maximum: nat)
    ensures match NormalizeRequired(value, maximum)
            case Ok(s) => Fit(value, maximum, true) && s == Normalized(value)
            case Err(_) => !Fit(value, maximum, true)
    ensures match NormalizeBounded(value, maximum)
            case Ok(s) => Fit(value, maximum, false) && s == Normalized(value)
            case Err(_) => !Fit(value, maximum, false)
  {
    hide Normalized, ByteLength;
  }

  lemma SourceAccepted(w: SourceContext)
    ensures match SourceIntoDomain(w)
            case Ok(s) => AcceptableSource(w) && SourceTidied(w, s)
            case Err(_) => !AcceptableSource(w)
  {
    hide Normalized, NormalizeRequired, StableTmuxId, TmuxId, Optionally, OptionallyEmpty, OptionalFit, Tidied, Fit;
    RequiredTidied(w.tmuxServerId, 256);
    TmuxIdExact(w.sessionId, '$');
    TmuxIdExact(w.windowId, '@');
    TmuxIdExact(w.paneId, '%');
    OptionalTidied(w.providerSessionId, 1024);
    OptionalTidied(w.cwd, 4096);
    OptionalTidied(w.command, 1024);
    OptionalTidied(w.paneTitle, 1024);
  }

  /** What the wire form has to be for a draft to come of it. */
  predicate Acceptable(w: WireDraft) {
    && Fit(w.title, 1024, false) && Fit(w.body, 49152, false) && OptionalFit(w.key, 1024, true)
    && OptionalFit(w.metadata.agentName, 1024, true) && OptionalFit(w.metadata.toolName, 1024, true)
    && (w.source.Some? ==> AcceptableSource(w.source.value))
    && (w.presentation.Attention? ==> w.source.Some?)
  }

  /** Field by field, what the draft takes from the wire form. An Attention has no timeout,
      whatever the wire says. */
  predicate TakenFrom(w: WireDraft, d: Draft) {
    && d.level == w.level && d.priority == w.priority && d.presentation == w.presentation
    && d.position == w.position
    && d.title == Normalized(w.title) && d.body == Normalized(w.body) && Tidied(w.key, d.key)
    && (if d.presentation.Attention? || w.timeoutMs.None? then d.timeout.NeverExpires?
        else d.timeout == After(w.timeoutMs.value * 1_000_000))
    && w.source.Some? == d.source.Some? && (w.source.Some? ==> SourceTidied(w.source.value, d.source.value))
    && d.metadata.agentEventKind == w.metadata.agentEventKind
    && Tidied(w.metadata.agentName, d.metadata.agentName) && Tidied(w.metadata.toolName, d.metadata.toolName)
  }

  lemma MetadataAccepted(w: Metadata)
    ensures match MetadataIntoDomain(w)
            case Ok(m) =>
              && OptionalFit(w.agentName, 1024, true) && OptionalFit(w.toolName, 1024, true)
              && m.agentEventKind == w.agentEventKind
              && Tidied(w.agentName, m.agentName) && Tidied(w.toolName, m.toolName)
            case Err(_) => !OptionalFit(w.agentName, 1024, true) || !OptionalFit(w.toolName, 1024, true)
  {
    hide Optionally, OptionalFit, Tidied;
    OptionalTidied(w.agentName, 1024);
    OptionalTidied(w.toolName, 1024);
  }

  /** Exactly the acceptable wire forms become drafts, each field from its own. */
  lemma AcceptedIff(w: WireDraft)
    ensures match IntoDomain(w) case Ok(d) => Acceptable(w) && TakenFrom(w, d) case Err(_) => !Acceptable(w)
  {
    hide Normalized, NormalizeBounded, SourceIntoDomain, MetadataIntoDomain, Optionally, OptionalFit, Tidied, Fit,
      AcceptableSource, SourceTidied;
    RequiredTidied(w.title, 1024);
    RequiredTidied(w.body, 49152);
    OptionalTidied(w.key, 1024);
    MetadataAccepted(w.metadata);
    if w.source.Some? { SourceAccepted(w.source.value); }
  }

  // ---------- there and back ----------

  lemma BoundedExact(value: string, maximum: nat)
    ensures match NormalizeBounded(value, maximum) case Ok(s) => Bounded(s, maximum) case Err(_) => true
    ensures NormalizeBounded(value, maximum) == Ok(value) <==> Bounded(value, maximum)
  {
    hide Normalized, Clean;
    NormalizedIsClean(value);
    UnchangedIffClean(value);
  }

  lemma OptionalExact(value: Option<string>, maximum: nat)
    ensures var r := Optionally(value, maximum);
            r.Ok? ==> OptionalText(r.value, maximum) && r.value.Some? == value.Some?
    ensures Optionally(value, maximum) == Ok(value) <==> OptionalText(value, maximum)
  {
    hide Bounded, NormalizeBounded;
    if value.Some? { BoundedExact(value.value, maximum); }
  }

  lemma TmuxIdExact(value: string, prefix: char)
    ensures match StableTmuxId(value, prefix)
            case Ok(s) => s == value && TmuxId(s, prefix)
            case Err(_) => !TmuxId(value, prefix)
  {
  }

  lemma SourceExact(w: SourceContext)
    ensures match SourceIntoDomain(w) case Ok(s) => BuiltSource(s) case Err(_) => true
    ensures BuiltSource(w) ==> SourceIntoDomain(w) == Ok(w)
  {
    hide Bounded, NormalizeBounded, StableTmuxId, TmuxId, Optionally, OptionalText;
    BoundedExact(w.tmuxServerId, MAX_SOURCE_ID_BYTES);
    TmuxIdExact(w.sessionId, '$');
    TmuxIdExact(w.windowId, '@');
    TmuxIdExact(w.paneId, '%');
    OptionalExact(w.providerSessionId, MAX_SOURCE_VALUE_BYTES);
    OptionalExact(w.cwd, MAX_CWD_BYTES);
    OptionalExact(w.command, MAX_SOURCE_VALUE_BYTES);
    if w.paneTitle.Some? { BoundedExact(w.paneTitle.value, MAX_SOURCE_VALUE_BYTES); }
  }

  lemma MetadataExact(w: Metadata)
    ensures match MetadataIntoDomain(w)
            case Ok(m) =>
              OptionalText(m.agentName, MAX_METADATA_VALUE_BYTES) && OptionalText(m.toolName, MAX_METADATA_VALUE_BYTES)
            case Err(_) => true
    ensures (OptionalText(w.agentName, MAX_METADATA_VALUE_BYTES)
             && OptionalText(w.toolName, MAX_METADATA_VALUE_BYTES)) ==>
      MetadataIntoDomain(w) == Ok(w)
  {
    hide Optionally, OptionalText;
    OptionalExact(w.agentName, MAX_METADATA_VALUE_BYTES);
    OptionalExact(w.toolName, MAX_METADATA_VALUE_BYTES);
  }

  lemma TimeoutExact(t: Timeout)
    ensures WireTimeout(TimeoutMillis(t)) == t <==> WholeMillis(t)
  {
    if t.After? {
      var ms := t.duration / MILLISECOND;
      assert t.duration == ms * MILLISECOND + t.duration % MILLISECOND;
    }
  }

  /** Whatever is accepted has been built properly. */
  lemma AcceptedIsBuilt(w: WireDraft)
    requires IntoDomain(w).Ok?
    ensures Built(IntoDomain(w).value)
  {
    hide Bounded, NormalizeBounded, Optionally, OptionalText, SourceIntoDomain, BuiltSource, MetadataIntoDomain;
    BoundedExact(w.title, MAX_TITLE_BYTES);
    BoundedExact(w.body, MAX_BODY_BYTES);
    OptionalExact(w.key, MAX_KEY_BYTES);
    MetadataExact(w.metadata);
    if w.source.Some? { SourceExact(w.source.value); }
  }

  /** A draft survives the trip to the wire and back exactly when its timeout is a whole
      number of milliseconds that fits 64 bits. */
  lemma DraftRoundTrips(d: Draft)
    requires Built(d)
    ensures IntoDomain(FromDomain(d)) == Ok(d) <==> WholeMillis(d.timeout)
  {
    hide Bounded, NormalizeBounded, Optionally, OptionalText, SourceIntoDomain, BuiltSource, MetadataIntoDomain,
      WireTimeout, TimeoutMillis;
    BoundedExact(d.title, MAX_TITLE_BYTES);
    BoundedExact(d.body, MAX_BODY_BYTES);
    OptionalExact(d.key, MAX_KEY_BYTES);
    MetadataExact(d.metadata);
    TimeoutExact(d.timeout);
    if d.source.Some? { SourceExact(d.source.value); }
  }

  /** So sending on what was once accepted changes nothing. */
  lemma AcceptedRoundTrips(w: WireDraft)
    requires IntoDomain(w).Ok? && (w.timeoutMs.Some? ==> w.timeoutMs.value <= U64_MAX)
    ensures IntoDomain(FromDomain(IntoDomain(w).value)) == IntoDomain(w)
  {
    hide IntoDomain, FromDomain, Built;
    AcceptedIsBuilt(w);
    AcceptedTimeout(w);
    DraftRoundTrips(IntoDomain(w).value);
  }

  lemma AcceptedTimeout(w: WireDraft)
    requires IntoDomain(w).Ok? && (w.timeoutMs.Some? ==> w.timeoutMs.value <= U64_MAX)
    ensures WholeMillis(IntoDomain(w).value.timeout)
  {
    if w.timeoutMs.Some? {
      var ms := w.timeoutMs.value;
      assert (ms * MILLISECOND) / MILLISECOND == ms && (ms * MILLISECOND) % MILLISECOND == 0;
    }
  }

  // ---------- partial updates ----------

  datatype WireUpdate = WireUpdate(
    title: Option<string>,
    body: Option<string>,
    level: Option<Level>,
    priority: Option<Priority>,
    timeoutMs: Option<Option<nat>>,
    position: Option<Placement>)

  function UpdateFromDomain(u: Update): WireUpdate {
    WireUpdate(u.title, u.body, u.level, u.priority,
               if u.timeout.Some? then Some(TimeoutMillis(u.timeout.value)) else None,
               if u.position.Some? then u.position.value else None)
  }

  function UpdateIntoDomain(w: WireUpdate): Result<Update, IngressError> {
    match OptionallyEmpty(w.title, MAX_TITLE_BYTES)
    case Err(e) => Err(e)
    case Ok(title) =>
    match OptionallyEmpty(w.body, MAX_BODY_BYTES)
    case Err(e) => Err(e)
    case Ok(body) =>
      Ok(Update(title, body, w.level, w.priority,
                if w.timeoutMs.Some? then Some(WireTimeout(w.timeoutMs.value)) else None,
                if w.position.Some? then Some(w.position) else None))
  }

  /** An update that clears the position has no wire form: it comes back as one that leaves
      the position alone. Every other built update survives if its timeout does. */
  lemma UpdateRoundTrips(u: Update)
    requires u.title.Some? ==> Bounded(u.title.value, MAX_TITLE_BYTES)
    requires u.body.Some? ==> Bounded(u.body.value, MAX_BODY_BYTES)
    ensures UpdateIntoDomain(UpdateFromDomain(u)) == Ok(u)
       <==> u.position != Some(None) && (u.timeout.Some? ==> WholeMillis(u.timeout.value))
  {
    hide Bounded, NormalizeBounded, WireTimeout, TimeoutMillis, WholeMillis;
    if u.title.Some? { BoundedExact(u.title.value, MAX_TITLE_BYTES); }
    if u.body.Some? { BoundedExact(u.body.value, MAX_BODY_BYTES); }
    if u.timeout.Some? { TimeoutExact(u.timeout.value); }
  }

  /** A timeout is sent in whole milliseconds, cut off and not rounded, and a longer one than
      64 bits can carry as the longest. */
  lemma TimeoutSent(d: Duration)
    ensures match TimeoutMillis(After(d))
            case Some(ms) =>
              && ms <= 0xFFFF_FFFF_FFFF_FFFF && ms * 1_000_000 <= d
              && (ms == 0xFFFF_FFFF_FFFF_FFFF || d < (ms + 1) * 1_000_000)
            case None => false
  {
    assert d == (d / MILLISECOND) * MILLISECOND + d % MILLISECOND;
  }

  /** An update is accepted exactly when its texts fit; what it names it names from its own wire
      field, and on the wire no position means that the position is left alone. */
  lemma UpdateAcceptedIff(w: WireUpdate)
    ensures match UpdateIntoDomain(w)
            case Ok(u) =>
              && OptionalFit(w.title, 1024, false) && OptionalFit(w.body, 49152, false)
              && Tidied(w.title, u.title) && Tidied(w.body, u.body)
              && u.level == w.level && u.priority == w.priority
              && (match w.timeoutMs
                  case None => u.timeout.None?
                  case Some(None) => u.timeout == Some(NeverExpires)
                  case Some(Some(ms)) => u.timeout == Some(After(ms * 1_000_000)))
              && (match w.position
                  case None => u.position.None?
                  case Some(p) => u.position == Some(Some(p)))
            case Err(_) => !OptionalFit(w.title, 1024, false) || !OptionalFit(w.body, 49152, false)
  {
    hide OptionallyEmpty, OptionalFit, Tidied;
    OptionalTidied(w.title, 1024);
    OptionalTidied(w.body, 49152);
  }
}
