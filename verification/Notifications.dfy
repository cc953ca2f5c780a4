/** The normalized Notification model: drafts, partial updates and live records. */
module Notifications {
  import opened Wrappers

  type NotificationId = nat
  type Key = string
  /** Nanoseconds since the daemon's epoch, and spans of them. */
  type Instant = nat
  type Duration = nat
  /** Wall-clock timestamps are only stored, never compared. */
  type WallTime = int

  datatype Presentation = Toast | Attention
  datatype Level = Info | Success | Warning | Error
  datatype Priority = Low | Normal | High | Critical {
    function Rank(): nat {
      match this
      case Low => 0
      case Normal => 1
      case High => 2
      case Critical => 3
    }
  }
  datatype Timeout = After(duration: Duration) | NeverExpires
  datatype DeliveryState = Pending | Visible | Closed
  datatype CloseReason =
    | TimedOut | Dismissed | Jumped | RenderSuppressed | RenderFailed
    | DaemonInterrupted | DaemonStopped | ServerEnded
  datatype Provider = Claude | Codex
  datatype AgentEventKind =
    | NeedsAttention | Completed | Failed | Started | Interrupted
    | SubagentCompleted | ToolStarted | ToolCompleted
  datatype Placement = TopLeft | TopCenter | TopRight | BottomLeft | BottomCenter | BottomRight

  datatype SourceContext = SourceContext(
    provider: Option<Provider>,
    providerSessionId: Option<string>,
    tmuxServerId: string,
    sessionId: string,
    windowId: string,
    paneId: string,
    cwd: Option<string>,
    command: Option<string>,
    paneTitle: Option<string>)

  datatype Metadata = Metadata(
    agentEventKind: Option<AgentEventKind>,
    agentName: Option<string>,
    toolName: Option<string>)

  /** All send-time content. A live Notification carries exactly these fields, so
      two contents are the same when the values are equal. */
  datatype Content = Content(
    key: Option<Key>,
    level: Level,
    priority: Priority,
    presentation: Presentation,
    title: string,
    body: string,
    timeout: Timeout,
    source: Option<SourceContext>,
    position: Option<Placement>,
    metadata: Metadata)
  {
    /** What every draft constructor leaves true of an Attention. */
    predicate AttentionRules() {
      presentation == Attention ==> timeout == NeverExpires && source.Some?
    }
  }

  type Draft = c: Content | c.AttentionRules()
    witness Content(None, Info, Normal, Toast, "", "", After(3), None, None, Metadata(None, None, None))

  datatype Update = Update(
    title: Option<string>,
    body: Option<string>,
    level: Option<Level>,
    priority: Option<Priority>,
    timeout: Option<Timeout>,
    position: Option<Option<Placement>>)

  function Replace<T>(update: Option<T>, current: T): T {
    if update.Some? then update.value else current
  }

  /** The content after a partial update: presentation, key, source and metadata are
      immutable, and an Attention ignores a new timeout. */
  function Merged(c: Draft, u: Update): Draft {
    c.(title := Replace(u.title, c.title),
       body := Replace(u.body, c.body),
       level := Replace(u.level, c.level),
       priority := Replace(u.priority, c.priority),
       position := Replace(u.position, c.position),
       timeout := if c.presentation == Toast then Replace(u.timeout, c.timeout) else c.timeout)
  }

  datatype Notification = Notification(
    id: NotificationId,
    content: Draft,
    createdAt: WallTime,
    updatedAt: WallTime,
    delivery: DeliveryState,
    closeReason: Option<CloseReason>,
    lastJumpedAt: Option<WallTime>)
  {
    static function FromDraft(id: NotificationId, draft: Draft, now: WallTime): Notification {
      Notification(id, draft, now, now, Pending, None, None)
    }

    function ReplaceContent(draft: Draft, now: WallTime): Notification {
      this.(content := draft, updatedAt := now)
    }

    function MarkVisible(now: WallTime): Notification {
      if delivery == Pending then this.(delivery := Visible, updatedAt := now) else this
    }

    function Close(reason: CloseReason, now: WallTime): Notification {
      this.(delivery := Closed, closeReason := Some(reason), updatedAt := now,
            lastJumpedAt := if reason == Jumped then Some(now) else lastJumpedAt)
    }
  }
}
