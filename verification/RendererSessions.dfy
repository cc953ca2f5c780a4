/** One-time renderer credentials.

    Every public call that does something is an event. `Valid` says that what the stores
    hold is a function of the events and of the latest time seen, so the laws about whole
    histories at the end are laws about the object. */
module RendererSessionStores {
  import opened Wrappers
  import opened Notifications
  import opened Seqs

  type DisplayId = string
  type Token = string
  type RendererContent = string

  datatype SessionLimits = SessionLimits(maxSessions: nat, tokenTtl: Duration)
  datatype SessionError =
    | CapacityExhausted | RandomnessUnavailable | CredentialCollision
    | UnknownCredential | MismatchedCredential | StaleCredential | DuplicateRedemption
    | UnknownWindowDisplay | ChannelFull | RendererDisconnected

  datatype DisplaySession = DisplaySession(
    generation: nat,
    pendingToken: Option<Token>,
    connected: bool,
    content: RendererContent)
  datatype PendingCredential = PendingCredential(display: DisplayId, generation: nat, expiresAt: Instant)
  datatype RetiredReason = Consumed | StaleToken
  datatype Retired = Retired(display: DisplayId, reason: RetiredReason)
  datatype RendererLaunch = RendererLaunch(display: DisplayId, token: Token, generation: nat)
  /** What the redeemed stream is: its generation, and the content of its first frame. */
  datatype RendererStream = RendererStream(generation: nat, initial: RendererContent)
  datatype SendOutcome = Delivered | Full | Disconnected
  datatype RendererExit = Successful | FailedExit | Signalled
  datatype RendererOutcome = StaleExit | Stopped | Crashed(exit: RendererExit)

  const TOKEN_GENERATION_ATTEMPTS := 4

  // ---------- the history ----------

  function Later(a: Instant, b: Instant): Instant {
    if a < b then b else a
  }

  /** `Seen` is a call that was given the time and expired what was due. */
  datatype Event =
    | Seen(now: Instant)
    | Created(display: DisplayId, token: Token, generation: nat, at: Instant, content: RendererContent)
    | Redeemed(display: DisplayId, token: Token, generation: nat)
    | Updated(display: DisplayId, content: RendererContent)
    | Removed(display: DisplayId)
  {
    predicate About(id: DisplayId) {
      !Seen? && !Updated? && display == id
    }
    predicate Shows(id: DisplayId) {
      (Updated? || Created?) && display == id
    }
  }

  type History = seq<Event>

  /** The last event that made, used or ended a session of the display. */
  ghost function LastAbout(h: History, id: DisplayId): Option<Event> {
    if h == [] then None
    else if h[|h| - 1].About(id) then Some(h[|h| - 1])
    else LastAbout(h[..|h| - 1], id)
  }

  /** The latest time seen since then. */
  ghost function SeenSince(h: History, id: DisplayId): Instant {
    if h == [] || h[|h| - 1].About(id) then 0
    else if h[|h| - 1].Seen? then Later(h[|h| - 1].now, SeenSince(h[..|h| - 1], id))
    else SeenSince(h[..|h| - 1], id)
  }

  ghost function LastContent(h: History, id: DisplayId): Option<RendererContent> {
    if h == [] then None
    else if h[|h| - 1].Shows(id) then Some(h[|h| - 1].content)
    else LastContent(h[..|h| - 1], id)
  }

  /** The display's latest session is this token's: not redeemed, not ended, not expired. */
  ghost predicate Redeemable(h: History, id: DisplayId, token: Token, ttl: Duration) {
    match LastAbout(h, id)
    case Some(Created(_, t, _, at, _)) => t == token && SeenSince(h, id) < at + ttl
    case _ => false
  }

  ghost predicate LiveSession(h: History, id: DisplayId, ttl: Duration) {
    match LastAbout(h, id)
    case Some(Created(_, _, _, at, _)) => SeenSince(h, id) < at + ttl
    case Some(Redeemed(_, _, _)) => true
    case _ => false
  }

  /** Generations only grow, and only a session's own unredeemed token is redeemed. */
  ghost predicate Proper(h: History, nextGeneration: nat) {
    && (forall i, j :: 0 <= i < j < |h| && h[i].Created? && h[j].Created? ==> h[i].generation < h[j].generation)
    && (forall i :: 0 <= i < |h| && h[i].Created? ==> h[i].generation < nextGeneration)
    && (forall i :: 0 <= i < |h| && h[i].Redeemed? ==>
          var made := LastAbout(h[..i], h[i].display);
          made.Some? && made.value.Created? && made.value.token == h[i].token
          && made.value.generation == h[i].generation)
  }

  // ---------- what the stores hold ----------

  type Displays = map<DisplayId, DisplaySession>
  type Credentials = map<Token, PendingCredential>

  /** What is stored for a display is its latest session. */
  ghost predicate SessionAgrees(d: DisplaySession, h: History, id: DisplayId) {
    match LastAbout(h, id)
    case Some(Created(_, t, g, _, _)) =>
      d.generation == g && d.pendingToken == Some(t) && LastContent(h, id) == Some(d.content)
    case Some(Redeemed(_, _, g)) =>
      d.generation == g && d.pendingToken == None && LastContent(h, id) == Some(d.content)
    case _ => false
  }

  /** Every session live after `late` is stored, and every stored session was live after
      `early`. Between calls the two histories are the same. */
  ghost predicate DisplaysAgree(displays: Displays, early: History, late: History, ttl: Duration) {
    && (forall id :: LiveSession(late, id, ttl) ==> id in displays)
    && (forall id :: id in displays ==> LiveSession(early, id, ttl) && SessionAgrees(displays[id], late, id))
  }

  /** Live credentials and pending tokens are each other's inverse. */
  ghost predicate Paired(displays: Displays, credentials: Credentials) {
    && (forall t :: t in credentials ==>
          var c := credentials[t];
          c.display in displays && displays[c.display].pendingToken == Some(t)
          && displays[c.display].generation == c.generation)
    && (forall id :: id in displays && displays[id].pendingToken.Some? ==>
          displays[id].pendingToken.value in credentials
          && credentials[displays[id].pendingToken.value].display == id)
  }

  ghost predicate ExpiryAgrees(credentials: Credentials, h: History, ttl: Duration) {
    forall t :: t in credentials ==>
      var e := LastAbout(h, credentials[t].display);
      e.Some? && e.value.Created? && credentials[t].expiresAt == e.value.at + ttl
  }

  /** The bounded tombstones. */
  ghost predicate RetiredOk(retired: map<Token, Retired>, order: seq<Token>, credentials: Credentials, capacity: nat) {
    && Distinct(order)
    && (forall t :: t in order <==> t in retired)
    && |order| <= capacity
    && (forall t :: t in retired ==> t !in credentials)
  }

  /** The token was issued, and before its session was redeemed the session was ended or
      replaced, or a call was given a time at which it had expired. */
  ghost predicate WentStale(h: History, id: DisplayId, token: Token, ttl: Duration, made: nat, over: nat) {
    && made < over < |h| && h[made].Created? && h[made].display == id && h[made].token == token
    && (forall k :: made < k < over ==> !h[k].About(id))
    && (h[over] == Removed(id) || (h[over].Seen? && h[over].now >= h[made].at + ttl))
  }

  /** The token was redeemed for the display. */
  ghost predicate WasRedeemed(h: History, id: DisplayId, token: Token, i: nat) {
    i < |h| && h[i].Redeemed? && h[i].token == token && h[i].display == id
  }

  /** What a tombstone says became of its token did. */
  ghost predicate TombstoneTrue(h: History, token: Token, tombstone: Retired, ttl: Duration) {
    match tombstone.reason
    case Consumed => exists i: nat :: WasRedeemed(h, tombstone.display, token, i)
    case StaleToken => exists made: nat, over: nat :: WentStale(h, tombstone.display, token, ttl, made, over)
  }

  ghost predicate RetiredTells(retired: map<Token, Retired>, h: History, ttl: Duration) {
    forall t :: t in retired ==> TombstoneTrue(h, t, retired[t], ttl)
  }

  /** Which error refuses a token. Another display's token is mismatched, live or not; of the
      display's own, one redeemed before is a duplicate and one that ended unredeemed is stale;
      what neither store knows is unknown. */
  ghost predicate RefusedFor(e: SessionError, id: DisplayId, token: Token, credentials: Credentials,
                             retired: map<Token, Retired>)
  {
    && (e == DuplicateRedemption <==> token in retired && retired[token] == Retired(id, Consumed))
    && (e == StaleCredential <==> token in retired && retired[token] == Retired(id, StaleToken))
    && (e == UnknownCredential <==> token !in credentials && token !in retired)
    && (e == MismatchedCredential <==>
          (token in credentials && credentials[token].display != id)
          || (token in retired && retired[token].display != id))
  }

  lemma TombstoneTold(retired: map<Token, Retired>, h: History, id: DisplayId, token: Token, ttl: Duration)
    requires RetiredTells(retired, h, ttl)
    ensures token in retired && retired[token] == Retired(id, Consumed) ==>
      exists i: nat :: WasRedeemed(h, id, token, i)
    ensures token in retired && retired[token] == Retired(id, StaleToken) ==>
      exists made: nat, over: nat :: WentStale(h, id, token, ttl, made, over)
  {
    hide WasRedeemed, WentStale;
    assert token in retired ==> TombstoneTrue(h, token, retired[token], ttl);
  }

  // ---------- single steps ----------

  lemma HistoryNext(h: History, e: Event, id: DisplayId)
    ensures LastAbout(h + [e], id) == if e.About(id) then Some(e) else LastAbout(h, id)
    ensures LastContent(h + [e], id) == if e.Shows(id) then Some(e.content) else LastContent(h, id)
    ensures SeenSince(h + [e], id)
         == if e.About(id) then 0 else if e.Seen? then Later(e.now, SeenSince(h, id)) else SeenSince(h, id)
  {
    assert (h + [e])[..|h|] == h;
  }

  lemma HistoryNextAll(h: History, e: Event)
    ensures forall id :: LastAbout(h + [e], id) == if e.About(id) then Some(e) else LastAbout(h, id)
    ensures forall id :: LastContent(h + [e], id) == if e.Shows(id) then Some(e.content) else LastContent(h, id)
    ensures forall id ::
      SeenSince(h + [e], id)
      == if e.About(id) then 0 else if e.Seen? then Later(e.now, SeenSince(h, id)) else SeenSince(h, id)
  {
    forall id
      ensures LastAbout(h + [e], id) == if e.About(id) then Some(e) else LastAbout(h, id)
      ensures LastContent(h + [e], id) == if e.Shows(id) then Some(e.content) else LastContent(h, id)
      ensures SeenSince(h + [e], id)
           == if e.About(id) then 0 else if e.Seen? then Later(e.now, SeenSince(h, id)) else SeenSince(h, id)
    {
      HistoryNext(h, e, id);
    }
  }

  lemma ProperNext(h: History, e: Event, next: nat)
    requires Proper(h, next)
    requires e.Created? ==> e.generation == next
    requires e.Redeemed? ==> var m := LastAbout(h, e.display);
                             m.Some? && m.value.Created? && m.value.token == e.token
                             && m.value.generation == e.generation
    ensures Proper(h + [e], if e.Created? then next + 1 else next)
  {
    var r := h + [e];
    forall i | 0 <= i < |r| ensures r[..i] == h[..i] {
    }
    assert r[..|h|] == h;
  }

  lemma TombstoneNext(h: History, e: Event, token: Token, tombstone: Retired, ttl: Duration)
    requires TombstoneTrue(h, token, tombstone, ttl)
    ensures TombstoneTrue(h + [e], token, tombstone, ttl)
  {
    match tombstone.reason
    case Consumed =>
      var i: nat :| WasRedeemed(h, tombstone.display, token, i);
      assert WasRedeemed(h + [e], tombstone.display, token, i);
    case StaleToken =>
      var made: nat, over: nat :| WentStale(h, tombstone.display, token, ttl, made, over);
      assert WentStale(h + [e], tombstone.display, token, ttl, made, over);
  }

  lemma TellsNext(retired: map<Token, Retired>, h: History, e: Event, ttl: Duration)
    requires RetiredTells(retired, h, ttl)
    ensures RetiredTells(retired, h + [e], ttl)
  {
    hide TombstoneTrue;
    forall t | t in retired ensures TombstoneTrue(h + [e], t, retired[t], ttl) {
      TombstoneNext(h, e, t, retired[t], ttl);
    }
  }

  lemma {:induction false} LastAboutMember(h: History, id: DisplayId) returns (i: nat)
    requires LastAbout(h, id).Some?
    ensures i < |h| && h[i] == LastAbout(h, id).value && h[i].About(id)
    ensures forall j :: i < j < |h| ==> !h[j].About(id)
  {
    i := |h| - 1;
    if !h[i].About(id) {
      i := LastAboutMember(h[..|h| - 1], id);
    }
  }

  // ---------- the object ----------

  class RendererSessions {
    const limits: SessionLimits
    var displays: Displays
    var credentials: Credentials
    var retired: map<Token, Retired>
    var retiredOrder: seq<Token>
    var nextGeneration: nat
    ghost var history: History

    ghost predicate Stored(early: History)
      reads this
    {
      && limits.maxSessions > 0 && limits.tokenTtl > 0
      && DisplaysAgree(displays, early, history, limits.tokenTtl)
      && Paired(displays, credentials)
      && ExpiryAgrees(credentials, history, limits.tokenTtl)
      && RetiredOk(retired, retiredOrder, credentials, 2 * limits.maxSessions)
      && RetiredTells(retired, history, limits.tokenTtl)
      && Proper(history, nextGeneration)
      && |displays| <= limits.maxSessions
    }

    ghost predicate Valid()
      reads this
    {
      Stored(history)
    }

    constructor (limits: SessionLimits)
      requires limits.maxSessions > 0 && limits.tokenTtl > 0
      ensures Valid() && history == [] && this.limits == limits
    {
      this.limits := limits;
      displays, credentials, retired, retiredOrder := map[], map[], map[], [];
      nextGeneration := 1;
      history := [];
    }

    method Retire(token: Token, id: DisplayId, reason: RetiredReason)
      requires RetiredOk(retired, retiredOrder, credentials, 2 * limits.maxSessions) && limits.maxSessions > 0
      requires token !in credentials && token !in retired
      modifies this`retired, this`retiredOrder
      ensures RetiredOk(retired, retiredOrder, credentials, 2 * limits.maxSessions)
      ensures retiredOrder == LastN(old(retiredOrder) + [token], 2 * limits.maxSessions)
      ensures forall t :: t in retired ==>
        if t == token then retired[t] == Retired(id, reason) else t in old(retired) && retired[t] == old(retired)[t]
    {
      retired := retired[token := Retired(id, reason)];
      AppendedDistinct(retiredOrder, token);
      retiredOrder := retiredOrder + [token];
      EvictRetired();
    }

    /** The oldest tombstones go. */
    method EvictRetired()
      requires Distinct(retiredOrder) && (forall t :: t in retiredOrder <==> t in retired)
      modifies this`retired, this`retiredOrder
      ensures Distinct(retiredOrder) && (forall t :: t in retiredOrder <==> t in retired)
      ensures retiredOrder == LastN(old(retiredOrder), 2 * limits.maxSessions)
      ensures forall t :: t in retired ==> t in old(retired) && retired[t] == old(retired)[t]
    {
      hide Distinct;
      var capacity := 2 * limits.maxSessions;
      while |retiredOrder| > capacity
        invariant LastN(retiredOrder, capacity) == LastN(old(retiredOrder), capacity)
        invariant Distinct(retiredOrder) && (forall t :: t in retiredOrder <==> t in retired)
        invariant forall t :: t in retired ==> t in old(retired) && retired[t] == old(retired)[t]
        decreases |retiredOrder|
      {
        FrontOut(retiredOrder);
        LastNTail(retiredOrder, capacity);
        var oldest := retiredOrder[0];
        retiredOrder := retiredOrder[1..];
        retired := retired - {oldest};
      }
    }

    /** An expired credential takes its unredeemed session with it. */
    method ExpireOne(t: Token, ghost early: History)
      requires Stored(early) && t in credentials
        && credentials[t].expiresAt <= SeenSince(history, credentials[t].display)
      modifies this`displays, this`credentials, this`retired, this`retiredOrder
      ensures Stored(early) && credentials == old(credentials) - {t} && displays.Keys <= old(displays.Keys)
    {
      hide DisplaysAgree, Paired, ExpiryAgrees, RetiredOk, RetiredTells, Proper;
      var c := credentials[t];
      ExpiredTold(displays, credentials, early, history, t, limits.tokenTtl);
      ExpiredOne(displays, credentials, early, history, t, limits.tokenTtl);
      RetiredFresh(retired, retiredOrder, credentials, 2 * limits.maxSessions, t);
      credentials := credentials - {t};
      if c.display in displays && displays[c.display].generation == c.generation {
        displays := displays - {c.display};
      }
      Retire(t, c.display, StaleToken);
      TellsRetired(old(retired), retired, history, t, c.display, StaleToken, limits.tokenTtl);
    }

    /** Every unredeemed session whose time is up goes, in no particular order. */
    method ExpireCredentials(now: Instant)
      requires Valid()
      modifies this`displays, this`credentials, this`retired, this`retiredOrder, this`history
      ensures Valid() && history == old(history) + [Seen(now)] && displays.Keys <= old(displays.Keys)
    {
      hide DisplaysAgree, Paired, ExpiryAgrees, RetiredOk, RetiredTells, Proper;
      ghost var early := history;
      SeenAgrees(displays, credentials, history, now, limits.tokenTtl);
      TellsNext(retired, history, Seen(now), limits.tokenTtl);
      ProperNext(history, Seen(now), nextGeneration);
      SeenBy(credentials, history, now);
      history := history + [Seen(now)];
      var expired := set t | t in credentials && credentials[t].expiresAt <= now;
      while expired != {}
        invariant Stored(early) && history == early + [Seen(now)] && displays.Keys <= old(displays.Keys)
        invariant forall t :: t in expired ==> t in credentials && credentials[t].expiresAt <= now
        invariant forall t :: t in credentials && t !in expired ==> credentials[t].expiresAt > now
        invariant forall t :: t in credentials ==> now <= SeenSince(history, credentials[t].display)
        decreases expired
      {
        var t :| t in expired;
        ExpireOne(t, early);
        expired := expired - {t};
      }
      AllExpired(displays, credentials, early, now, limits.tokenTtl);
    }

    /** Takes a display out, and its unredeemed token with it. */
    method RemoveSession(id: DisplayId)
      requires Valid() && id in displays
      modifies this`displays, this`credentials, this`retired, this`retiredOrder, this`history
      ensures Valid() && history == old(history) + [Removed(id)] && displays == old(displays) - {id}
    {
      hide DisplaysAgree, Paired, ExpiryAgrees, RetiredOk, RetiredTells, Proper;
      var display := displays[id];
      RemovedAgrees(displays, history, id, limits.tokenTtl);
      RemovedPaired(displays, credentials, history, id, limits.tokenTtl);
      if display.pendingToken.Some? { PendingTold(displays, history, id, limits.tokenTtl); }
      assert (displays - {id}).Keys == displays.Keys - {id};
      TellsNext(retired, history, Removed(id), limits.tokenTtl);
      ProperNext(history, Removed(id), nextGeneration);
      displays := displays - {id};
      history := history + [Removed(id)];
      if display.pendingToken.Some? {
        var token := display.pendingToken.value;
        RetiredFresh(retired, retiredOrder, credentials, 2 * limits.maxSessions, token);
        credentials := credentials - {token};
        Retire(token, id, StaleToken);
        TellsRetired(old(retired), retired, history, token, id, StaleToken, limits.tokenTtl);
      }
    }

    /** At most four draws; `draws` is what the generator yields. */
    method UniqueToken(draws: seq<Option<Token>>) returns (r: Result<Token, SessionError>)
      requires |draws| >= TOKEN_GENERATION_ATTEMPTS
      ensures FirstUnused(draws, credentials.Keys + retired.Keys, TOKEN_GENERATION_ATTEMPTS, r)
    {
      for i := 0 to TOKEN_GENERATION_ATTEMPTS
        invariant AllTaken(draws, credentials.Keys + retired.Keys, i)
      {
        if draws[i].None? {
          return Err(RandomnessUnavailable);
        }
        var token := draws[i].value;
        if token !in credentials && token !in retired {
          return Ok(token);
        }
      }
      return Err(CredentialCollision);
    }

    method Admit(id: DisplayId, token: Token, content: RendererContent, now: Instant)
      requires Valid() && id !in displays && |displays| < limits.maxSessions
      requires token !in credentials && token !in retired
      modifies this`displays, this`credentials, this`nextGeneration, this`history
      ensures Valid() && history == old(history) + [Created(id, token, old(nextGeneration), now, content)]
      ensures displays.Keys == old(displays).Keys + {id} && nextGeneration == old(nextGeneration) + 1
    {
      hide DisplaysAgree, Paired, ExpiryAgrees, RetiredOk, RetiredTells, Proper;
      var generation := nextGeneration;
      AdmittedOne(displays, credentials, history, id, token, generation, content, now, limits.tokenTtl);
      StillRetired(retired, retiredOrder, credentials, 2 * limits.maxSessions, token,
                   PendingCredential(id, generation, now + limits.tokenTtl));
      TellsNext(retired, history, Created(id, token, generation, now, content), limits.tokenTtl);
      ProperNext(history, Created(id, token, generation, now, content), nextGeneration);
      nextGeneration := nextGeneration + 1;
      credentials := credentials[token := PendingCredential(id, generation, now + limits.tokenTtl)];
      displays := displays[id := DisplaySession(generation, Some(token), false, content)];
      history := history + [Created(id, token, generation, now, content)];
    }

    method Create(id: DisplayId, content: RendererContent, now: Instant, draws: seq<Option<Token>>)
      returns (r: Result<RendererLaunch, SessionError>)
      requires Valid() && |draws| >= TOKEN_GENERATION_ATTEMPTS
      modifies this
      ensures Valid() && displays.Keys <= old(displays.Keys) + {id} && (r.Err? ==> id !in displays)
      ensures var seen := old(history) + [Seen(now)];
              var ended := if LiveSession(seen, id, limits.tokenTtl) then seen + [Removed(id)] else seen;
              match r
              case Ok(launch) =>
                launch.display == id && launch.generation == old(nextGeneration)
                && history == ended + [Created(id, launch.token, launch.generation, now, content)]
              case Err(CapacityExhausted) =>
                history == seen && id !in displays && |displays| == limits.maxSessions
              case Err(_) => history == ended && id !in displays
    {
      ExpireCredentials(now);
      assert id in displays <==> LiveSession(history, id, limits.tokenTtl);
      hide DisplaysAgree, Paired, ExpiryAgrees, RetiredOk, RetiredTells, Proper, LiveSession;
      if id !in displays && |displays| >= limits.maxSessions {
        return Err(CapacityExhausted);
      }
      if id in displays {
        assert displays.Keys == (displays - {id}).Keys + {id};
        RemoveSession(id);
      }
      var token := UniqueToken(draws);
      if token.Err? {
        return Err(token.error);
      }
      var generation := nextGeneration;
      Admit(id, token.value, content, now);
      return Ok(RendererLaunch(id, token.value, generation));
    }

    function RetiredError(id: DisplayId, token: Token): SessionError
      reads this
    {
      if token !in retired then UnknownCredential
      else if retired[token].display != id then MismatchedCredential
      else if retired[token].reason == Consumed then DuplicateRedemption
      else StaleCredential
    }

    /** The first send into a fresh channel of positive capacity cannot fail. */
    method Redeem(id: DisplayId, token: Token, now: Instant) returns (r: Result<RendererStream, SessionError>)
      requires Valid()
      modifies this
      ensures Valid()
      ensures var seen := old(history) + [Seen(now)];
              && (r.Ok? <==> Redeemable(seen, id, token, limits.tokenTtl))
              && (match r
                  case Ok(stream) =>
                    history == seen + [Redeemed(id, token, stream.generation)]
                    && LastAbout(seen, id).value.generation == stream.generation
                    && LastContent(seen, id) == Some(stream.initial)
                    && (token in retired ==> retired[token] == Retired(id, Consumed))
                  case Err(e) => history == seen && RefusedFor(e, id, token, credentials, retired))
              && (r == Err(DuplicateRedemption) ==> exists i: nat :: WasRedeemed(seen, id, token, i))
              && (r == Err(StaleCredential) ==>
                    exists made: nat, over: nat :: WentStale(seen, id, token, limits.tokenTtl, made, over))
    {
      ExpireCredentials(now);
      CredentialsAreRedeemable(displays, credentials, history, id, token, limits.tokenTtl);
      hide DisplaysAgree, Paired, ExpiryAgrees, RetiredOk, RetiredTells, Proper, LastAbout, LastContent, Redeemable,
        WasRedeemed, WentStale;
      if token !in credentials {
        TombstoneTold(retired, history, id, token, limits.tokenTtl);
        return Err(RetiredError(id, token));
      }
      RetiredFresh(retired, retiredOrder, credentials, 2 * limits.maxSessions, token);
      var credential := credentials[token];
      if credential.display != id {
        return Err(MismatchedCredential);
      }
      if id !in displays {
        assert false;
      }
      if displays[id].generation != credential.generation || displays[id].pendingToken != Some(token) {
        assert false;
      }
      var stream := RendererStream(credential.generation, displays[id].content);
      Consume(id, token);
      return Ok(stream);
    }

    /** The token is spent and its session connected. */
    method Consume(id: DisplayId, token: Token)
      requires Valid() && token in credentials && credentials[token].display == id && id in displays
      modifies this
      ensures Valid() && history == old(history) + [Redeemed(id, token, old(credentials)[token].generation)]
      ensures token in retired ==> retired[token] == Retired(id, Consumed)
    {
      hide DisplaysAgree, Paired, ExpiryAgrees, RetiredOk, RetiredTells, Proper;
      RedeemedOne(displays, credentials, history, id, token, limits.tokenTtl);
      MadeFrom(displays, credentials, history, id, token, limits.tokenTtl);
      RetiredFresh(retired, retiredOrder, credentials, 2 * limits.maxSessions, token);
      ghost var e := Redeemed(id, token, credentials[token].generation);
      TellsNext(retired, history, e, limits.tokenTtl);
      ProperNext(history, e, nextGeneration);
      displays := displays[id := displays[id].(pendingToken := None, connected := true)];
      credentials := credentials - {token};
      history := history + [e];
      Retire(token, id, Consumed);
      ConsumedTombstone(old(history), id, token, old(credentials)[token].generation, limits.tokenTtl);
      TellsRetired(old(retired), retired, history, token, id, Consumed, limits.tokenTtl);
    }

    /** `sent` is what the channel to a connected renderer makes of the message. */
    method Update(id: DisplayId, content: RendererContent, sent: SendOutcome) returns (r: Result<bool, SessionError>)
      requires Valid()
      modifies this`displays, this`history
      ensures Valid() && displays.Keys == old(displays.Keys)
      ensures history == if LiveSession(old(history), id, limits.tokenTtl) then old(history) + [Updated(id, content)]
                         else old(history)
      ensures r == Err(UnknownWindowDisplay) <==> !LiveSession(old(history), id, limits.tokenTtl)
      ensures id in old(displays) ==>
        && (r.Ok? <==> sent.Delivered? || !old(displays)[id].connected)
        && (r == Err(ChannelFull) <==> sent.Full? && old(displays)[id].connected)
        && (displays[id].connected <==> old(displays)[id].connected && !sent.Disconnected?)
      ensures forall other :: other in displays && other != id ==> displays[other] == old(displays)[other]
    {
      assert id in displays <==> LiveSession(history, id, limits.tokenTtl);
      hide DisplaysAgree, Paired, ExpiryAgrees, RetiredOk, RetiredTells, Proper, LiveSession;
      if id !in displays {
        return Err(UnknownWindowDisplay);
      }
      var display := displays[id];
      var stays := !(display.connected && sent.Disconnected?);
      UpdatedOne(displays, credentials, history, id, content, display.connected && stays, limits.tokenTtl);
      TellsNext(retired, history, Updated(id, content), limits.tokenTtl);
      ProperNext(history, Updated(id, content), nextGeneration);
      displays := displays[id := display.(content := content, connected := display.connected && stays)];
      history := history + [Updated(id, content)];
      r := if !display.connected then Ok(true)
           else match sent
                case Delivered => Ok(true)
                case Full => Err(ChannelFull)
                case Disconnected => Err(RendererDisconnected);
    }

    method Terminate(id: DisplayId, sent: SendOutcome) returns (r: Result<bool, SessionError>)
      requires Valid()
      modifies this
      ensures Valid() && displays.Keys == old(displays.Keys) - {id}
      ensures history == if LiveSession(old(history), id, limits.tokenTtl) then old(history) + [Removed(id)]
                         else old(history)
      ensures r == Err(UnknownWindowDisplay) <==> !LiveSession(old(history), id, limits.tokenTtl)
    {
      assert id in displays <==> LiveSession(history, id, limits.tokenTtl);
      hide DisplaysAgree, Paired, ExpiryAgrees, RetiredOk, RetiredTells, Proper, LiveSession;
      if id !in displays {
        return Err(UnknownWindowDisplay);
      }
      var connected := displays[id].connected;
      RemoveSession(id);
      r := if connected && sent.Full? then Err(ChannelFull) else Ok(true);
    }

    method RendererExited(id: DisplayId, generation: nat, exit: RendererExit) returns (outcome: RendererOutcome)
      requires Valid()
      modifies this
      ensures Valid()
      ensures var current := LiveSession(old(history), id, limits.tokenTtl)
                             && LastAbout(old(history), id).value.generation == generation;
              && (outcome == StaleExit <==> !current)
              && (current ==> history == old(history) + [Removed(id)]
                              && outcome == if exit.Successful? then Stopped else Crashed(exit))
              && (!current ==> history == old(history) && displays == old(displays) && credentials == old(credentials)
                               && retired == old(retired) && retiredOrder == old(retiredOrder))
    {
      CurrentGeneration(displays, history, id, limits.tokenTtl);
      hide DisplaysAgree, Paired, ExpiryAgrees, RetiredOk, RetiredTells, Proper, LiveSession, LastAbout;
      if id !in displays || displays[id].generation != generation {
        return StaleExit;
      }
      RemoveSession(id);
      return if exit.Successful? then Stopped else Crashed(exit);
    }
  }

  /** The first draws all named tokens in use. */
  ghost predicate AllTaken(draws: seq<Option<Token>>, taken: set<Token>, n: nat) {
    n <= |draws| && forall k :: 0 <= k < n ==> draws[k].Some? && draws[k].value in taken
  }

  /** What comes of drawing: the first token not in use, an error as soon as there is none to
      draw, or a collision when every attempt named one in use. */
  ghost predicate FirstUnused(draws: seq<Option<Token>>, taken: set<Token>, attempts: nat,
                              r: Result<Token, SessionError>)
    requires |draws| >= attempts
  {
    match r
    case Ok(t) => t !in taken && exists i: nat :: i < attempts && draws[i] == Some(t) && AllTaken(draws, taken, i)
    case Err(RandomnessUnavailable) => exists i: nat :: i < attempts && draws[i].None? && AllTaken(draws, taken, i)
    case Err(e) => e == CredentialCollision && AllTaken(draws, taken, attempts)
  }

  lemma RemovedAgrees(displays: Displays, h: History, id: DisplayId, ttl: Duration)
    requires DisplaysAgree(displays, h, h, ttl)
    ensures DisplaysAgree(displays - {id}, h + [Removed(id)], h + [Removed(id)], ttl)
  {
    HistoryNextAll(h, Removed(id));
    assert forall x :: x in displays - {id} ==> SessionAgrees(displays[x], h, x);
  }

  ghost function CredentialsWithout(displays: Displays, credentials: Credentials, id: DisplayId): Credentials
    requires id in displays
  {
    if displays[id].pendingToken.Some? then credentials - {displays[id].pendingToken.value} else credentials
  }

  lemma RemovedPaired(displays: Displays, credentials: Credentials, h: History, id: DisplayId, ttl: Duration)
    requires Paired(displays, credentials) && ExpiryAgrees(credentials, h, ttl) && id in displays
    ensures var rest := CredentialsWithout(displays, credentials, id);
            Paired(displays - {id}, rest) && ExpiryAgrees(rest, h + [Removed(id)], ttl)
    ensures displays[id].pendingToken.Some? ==> displays[id].pendingToken.value in credentials
  {
    HistoryNextAll(h, Removed(id));
  }

  lemma PendingTold(displays: Displays, h: History, id: DisplayId, ttl: Duration)
    requires DisplaysAgree(displays, h, h, ttl) && id in displays && displays[id].pendingToken.Some?
    ensures TombstoneTrue(h + [Removed(id)], displays[id].pendingToken.value, Retired(id, StaleToken), ttl)
  {
    assert SessionAgrees(displays[id], h, id);
    RemovedTombstone(h, id, ttl);
  }

  lemma ExpiredTold(displays: Displays, credentials: Credentials, early: History, h: History, t: Token, ttl: Duration)
    requires DisplaysAgree(displays, early, h, ttl) && Paired(displays, credentials) && ttl > 0
    requires ExpiryAgrees(credentials, h, ttl)
    requires t in credentials && credentials[t].expiresAt <= SeenSince(h, credentials[t].display)
    ensures TombstoneTrue(h, t, Retired(credentials[t].display, StaleToken), ttl)
  {
    var id := credentials[t].display;
    assert SessionAgrees(displays[id], h, id);
    ExpiredTombstone(h, id, ttl);
  }

  lemma AdmittedAgrees(displays: Displays, h: History, id: DisplayId, token: Token, generation: nat,
                       content: RendererContent, now: Instant, ttl: Duration)
    requires DisplaysAgree(displays, h, h, ttl) && ttl > 0
    ensures var r := h + [Created(id, token, generation, now, content)];
            DisplaysAgree(displays[id := DisplaySession(generation, Some(token), false, content)], r, r, ttl)
  {
    HistoryNextAll(h, Created(id, token, generation, now, content));
    assert forall x :: x in displays ==> SessionAgrees(displays[x], h, x);
  }

  lemma AdmittedPaired(displays: Displays, credentials: Credentials, id: DisplayId, token: Token, generation: nat,
                       content: RendererContent, expiresAt: Instant)
    requires Paired(displays, credentials) && id !in displays && token !in credentials
    ensures Paired(displays[id := DisplaySession(generation, Some(token), false, content)],
                   credentials[token := PendingCredential(id, generation, expiresAt)])
  {
  }

  lemma AdmittedExpiry(displays: Displays, credentials: Credentials, h: History, e: Event, ttl: Duration)
    requires Paired(displays, credentials) && ExpiryAgrees(credentials, h, ttl)
    requires e.Created? && e.display !in displays
    ensures ExpiryAgrees(credentials[e.token := PendingCredential(e.display, e.generation, e.at + ttl)], h + [e], ttl)
  {
    HistoryNextAll(h, e);
  }

  lemma AdmittedOne(displays: Displays, credentials: Credentials, h: History, id: DisplayId, token: Token,
                    generation: nat,
                    content: RendererContent, now: Instant, ttl: Duration)
    requires DisplaysAgree(displays, h, h, ttl) && Paired(displays, credentials) && ExpiryAgrees(credentials, h, ttl)
    requires id !in displays && token !in credentials && ttl > 0
    ensures var r := h + [Created(id, token, generation, now, content)];
            var d := displays[id := DisplaySession(generation, Some(token), false, content)];
            var c := credentials[token := PendingCredential(id, generation, now + ttl)];
            DisplaysAgree(d, r, r, ttl) && Paired(d, c) && ExpiryAgrees(c, r, ttl) && |d| == |displays| + 1
  {
    hide DisplaysAgree, Paired, ExpiryAgrees;
    AdmittedAgrees(displays, h, id, token, generation, content, now, ttl);
    AdmittedPaired(displays, credentials, id, token, generation, content, now + ttl);
    AdmittedExpiry(displays, credentials, h, Created(id, token, generation, now, content), ttl);
  }

  lemma StillRetired(retired: map<Token, Retired>, order: seq<Token>, credentials: Credentials, capacity: nat,
                     token: Token, c: PendingCredential)
    requires RetiredOk(retired, order, credentials, capacity) && token !in retired
    ensures RetiredOk(retired, order, credentials[token := c], capacity)
  {
  }

  /** A token is live for a display exactly when history says it may be redeemed; so the
      guards behind the credential lookup never fire. */
  lemma CredentialsAreRedeemable(displays: Displays, credentials: Credentials, h: History, id: DisplayId, token: Token,
                                 ttl: Duration)
    requires DisplaysAgree(displays, h, h, ttl) && Paired(displays, credentials) && ExpiryAgrees(credentials, h, ttl)
    ensures Redeemable(h, id, token, ttl) <==> token in credentials && credentials[token].display == id
    ensures Redeemable(h, id, token, ttl) ==>
      && id in displays && displays[id].generation == credentials[token].generation
      && displays[id].pendingToken == Some(token)
      && LastAbout(h, id).value.generation == credentials[token].generation
      && LastContent(h, id) == Some(displays[id].content)
  {
    if id in displays { assert SessionAgrees(displays[id], h, id); }
  }

  lemma RedeemedAgrees(displays: Displays, h: History, id: DisplayId, token: Token, generation: nat, ttl: Duration)
    requires DisplaysAgree(displays, h, h, ttl) && id in displays && displays[id].generation == generation
    ensures var e := Redeemed(id, token, generation);
            DisplaysAgree(displays[id := displays[id].(pendingToken := None, connected := true)], h + [e], h + [e], ttl)
  {
    HistoryNextAll(h, Redeemed(id, token, generation));
    assert forall x :: x in displays ==> SessionAgrees(displays[x], h, x);
  }

  lemma RedeemedPaired(displays: Displays, credentials: Credentials, id: DisplayId, token: Token)
    requires Paired(displays, credentials) && id in displays && token in credentials && credentials[token].display == id
    ensures Paired(displays[id := displays[id].(pendingToken := None, connected := true)], credentials - {token})
    ensures displays[id].generation == credentials[token].generation && displays[id].pendingToken == Some(token)
  {
  }

  lemma RedeemedExpiry(displays: Displays, credentials: Credentials, h: History, id: DisplayId, token: Token,
                       generation: nat,
                       ttl: Duration)
    requires Paired(displays, credentials) && ExpiryAgrees(credentials, h, ttl)
    requires token in credentials && credentials[token].display == id
    ensures ExpiryAgrees(credentials - {token}, h + [Redeemed(id, token, generation)], ttl)
  {
    HistoryNextAll(h, Redeemed(id, token, generation));
  }

  lemma RedeemedOne(displays: Displays, credentials: Credentials, h: History, id: DisplayId, token: Token,
                    ttl: Duration)
    requires DisplaysAgree(displays, h, h, ttl) && Paired(displays, credentials) && ExpiryAgrees(credentials, h, ttl)
    requires token in credentials && credentials[token].display == id && id in displays
    ensures var e := Redeemed(id, token, credentials[token].generation);
            var d := displays[id := displays[id].(pendingToken := None, connected := true)];
            && DisplaysAgree(d, h + [e], h + [e], ttl) && Paired(d, credentials - {token})
            && ExpiryAgrees(credentials - {token}, h + [e], ttl) && |d| == |displays|
  {
    hide DisplaysAgree, Paired, ExpiryAgrees;
    RedeemedPaired(displays, credentials, id, token);
    RedeemedAgrees(displays, h, id, token, credentials[token].generation, ttl);
    RedeemedExpiry(displays, credentials, h, id, token, credentials[token].generation, ttl);
    assert displays[id := displays[id].(pendingToken := None, connected := true)].Keys == displays.Keys;
  }

  lemma MadeFrom(displays: Displays, credentials: Credentials, h: History, id: DisplayId, token: Token, ttl: Duration)
    requires DisplaysAgree(displays, h, h, ttl) && Paired(displays, credentials)
    requires token in credentials && credentials[token].display == id && id in displays
    ensures var m := LastAbout(h, id); m.Some? && m.value.Created? && m.value.token == token
                                       && m.value.generation == credentials[token].generation
  {
    assert SessionAgrees(displays[id], h, id);
  }

  lemma UpdatedOne(displays: Displays, credentials: Credentials, h: History, id: DisplayId, content: RendererContent,
                   connected: bool, ttl: Duration)
    requires DisplaysAgree(displays, h, h, ttl) && Paired(displays, credentials) && ExpiryAgrees(credentials, h, ttl)
    requires id in displays
    ensures var e := Updated(id, content);
            var d := displays[id := displays[id].(content := content, connected := connected)];
            && DisplaysAgree(d, h + [e], h + [e], ttl) && Paired(d, credentials)
            && ExpiryAgrees(credentials, h + [e], ttl) && |d| == |displays|
  {
    HistoryNextAll(h, Updated(id, content));
    assert forall x :: x in displays ==> SessionAgrees(displays[x], h, x);
    assert displays[id := displays[id].(content := content, connected := connected)].Keys == displays.Keys;
  }

  lemma CurrentGeneration(displays: Displays, h: History, id: DisplayId, ttl: Duration)
    requires DisplaysAgree(displays, h, h, ttl)
    ensures id in displays <==> LiveSession(h, id, ttl)
    ensures id in displays ==> LastAbout(h, id).Some? && !LastAbout(h, id).value.Removed?
                               && !LastAbout(h, id).value.Seen? && !LastAbout(h, id).value.Updated?
                               && displays[id].generation == LastAbout(h, id).value.generation
  {
    if id in displays { assert SessionAgrees(displays[id], h, id); }
  }

  lemma LastNTail<T>(s: seq<T>, n: nat)
    requires |s| > n
    ensures LastN(s[1..], n) == LastN(s, n)
  {
  }

  lemma FrontOut<T>(s: seq<T>)
    requires s != [] && Distinct(s)
    ensures Distinct(s[1..]) && forall x :: x in s[1..] <==> x in s && x != s[0]
  {
    assert s == [s[0]] + s[1..];
  }

  lemma SeenAgrees(displays: Displays, credentials: Credentials, h: History, now: Instant, ttl: Duration)
    requires DisplaysAgree(displays, h, h, ttl) && ExpiryAgrees(credentials, h, ttl)
    ensures DisplaysAgree(displays, h, h + [Seen(now)], ttl) && ExpiryAgrees(credentials, h + [Seen(now)], ttl)
  {
    HistoryNextAll(h, Seen(now));
  }

  lemma SeenBy(credentials: Credentials, h: History, now: Instant)
    ensures forall t :: t in credentials ==> now <= SeenSince(h + [Seen(now)], credentials[t].display)
  {
    HistoryNextAll(h, Seen(now));
  }

  lemma ExpiredOne(displays: Displays, credentials: Credentials, early: History, h: History, t: Token, ttl: Duration)
    requires DisplaysAgree(displays, early, h, ttl) && Paired(displays, credentials)
    requires ExpiryAgrees(credentials, h, ttl) && t in credentials
    requires credentials[t].expiresAt <= SeenSince(h, credentials[t].display)
    ensures var id := credentials[t].display;
            && id in displays && displays[id].generation == credentials[t].generation
            && DisplaysAgree(displays - {id}, early, h, ttl)
            && Paired(displays - {id}, credentials - {t}) && ExpiryAgrees(credentials - {t}, h, ttl)
            && |displays - {id}| <= |displays|
            && exists i :: 0 <= i < |h| && h[i].Created? && h[i].token == t && h[i].display == id
  {
    var id := credentials[t].display;
    var i := LastAboutMember(h, id);
    assert (displays - {id}).Keys == displays.Keys - {id};
    assert h[i].Created? && h[i].token == t;
  }

  lemma RetiredFresh(retired: map<Token, Retired>, order: seq<Token>, credentials: Credentials, capacity: nat, t: Token)
    requires RetiredOk(retired, order, credentials, capacity) && t in credentials
    ensures t !in retired && RetiredOk(retired, order, credentials - {t}, capacity)
  {
  }

  lemma TellsRetired(before: map<Token, Retired>, after: map<Token, Retired>, h: History, t: Token, id: DisplayId,
                     reason: RetiredReason, ttl: Duration)
    requires RetiredTells(before, h, ttl) && TombstoneTrue(h, t, Retired(id, reason), ttl)
    requires forall u :: u in after ==>
      if u == t then after[u] == Retired(id, reason) else u in before && after[u] == before[u]
    ensures RetiredTells(after, h, ttl)
  {
  }

  /** An unredeemed session whose time was seen to be up. */
  lemma ExpiredTombstone(h: History, id: DisplayId, ttl: Duration)
    requires var e := LastAbout(h, id); e.Some? && e.value.Created? && e.value.at + ttl <= SeenSince(h, id)
    requires ttl > 0
    ensures TombstoneTrue(h, LastAbout(h, id).value.token, Retired(id, StaleToken), ttl)
  {
    var made := LastAboutMember(h, id);
    SeenSinceBelow(h, id, made, h[made].at + ttl);
    var over :| made < over < |h| && h[over].Seen? && h[over].now >= h[made].at + ttl;
    assert WentStale(h, id, h[made].token, ttl, made, over);
  }

  /** An unredeemed session that is ended. */
  lemma RemovedTombstone(h: History, id: DisplayId, ttl: Duration)
    requires var e := LastAbout(h, id); e.Some? && e.value.Created?
    ensures TombstoneTrue(h + [Removed(id)], LastAbout(h, id).value.token, Retired(id, StaleToken), ttl)
  {
    var made := LastAboutMember(h, id);
    assert WentStale(h + [Removed(id)], id, h[made].token, ttl, made, |h|);
  }

  lemma ConsumedTombstone(h: History, id: DisplayId, token: Token, generation: nat, ttl: Duration)
    ensures TombstoneTrue(h + [Redeemed(id, token, generation)], token, Retired(id, Consumed), ttl)
  {
    assert WasRedeemed(h + [Redeemed(id, token, generation)], id, token, |h|);
  }

  lemma AllExpired(displays: Displays, credentials: Credentials, h: History, now: Instant, ttl: Duration)
    requires DisplaysAgree(displays, h, h + [Seen(now)], ttl) && Paired(displays, credentials)
    requires ExpiryAgrees(credentials, h + [Seen(now)], ttl)
    requires forall t :: t in credentials ==> credentials[t].expiresAt > now
    ensures DisplaysAgree(displays, h + [Seen(now)], h + [Seen(now)], ttl)
  {
    HistoryNextAll(h, Seen(now));
    forall id | id in displays ensures LiveSession(h + [Seen(now)], id, ttl) {
      assert LiveSession(h, id, ttl) && SessionAgrees(displays[id], h + [Seen(now)], id);
    }
  }

  // ---------- whole histories ----------

  lemma {:induction false} LastAboutIs(h: History, id: DisplayId, k: nat)
    requires k < |h| && h[k].About(id) && forall j :: k < j < |h| ==> !h[j].About(id)
    ensures LastAbout(h, id) == Some(h[k])
  {
    if k < |h| - 1 { LastAboutIs(h[..|h| - 1], id, k); }
  }

  lemma {:induction false} SeenSinceBelow(h: History, id: DisplayId, k: nat, bound: Instant)
    requires k < |h| && h[k].About(id) && forall j :: k < j < |h| ==> !h[j].About(id)
    ensures SeenSince(h, id) < bound <==> 0 < bound && forall j :: k < j < |h| && h[j].Seen? ==> h[j].now < bound
  {
    if k < |h| - 1 {
      var front := h[..|h| - 1];
      SeenSinceBelow(front, id, k, bound);
      assert forall j :: k < j < |front| ==> front[j] == h[j];
    }
  }

  /** A token may be redeemed exactly when it was issued by the display's latest creation, and
      since then that session was not redeemed or ended and no call was given a time at which
      it had expired. */
  ghost predicate StillOpen(h: History, id: DisplayId, token: Token, ttl: Duration, k: nat) {
    && k < |h| && h[k].Created? && h[k].display == id && h[k].token == token
    && (forall j :: k < j < |h| ==> !h[j].About(id))
    && (forall j :: k < j < |h| && h[j].Seen? ==> h[j].now < h[k].at + ttl)
  }

  lemma RedeemableMeans(h: History, id: DisplayId, token: Token, ttl: Duration)
    requires ttl > 0
    ensures Redeemable(h, id, token, ttl) <==> exists k: nat :: StillOpen(h, id, token, ttl, k)
  {
    if Redeemable(h, id, token, ttl) {
      var k := LastAboutMember(h, id);
      SeenSinceBelow(h, id, k, h[k].at + ttl);
      assert StillOpen(h, id, token, ttl, k);
    }
    if k: nat :| StillOpen(h, id, token, ttl, k) {
      LastAboutIs(h, id, k);
      SeenSinceBelow(h, id, k, h[k].at + ttl);
    }
  }

  /** The creation a redemption used: no event of the display lies between the two. */
  lemma MadeAt(h: History, next: nat, i: nat) returns (k: nat)
    requires Proper(h, next) && i < |h| && h[i].Redeemed?
    ensures k < i && h[k].Created? && h[k].display == h[i].display && h[k].token == h[i].token
    ensures h[k].generation == h[i].generation && forall j :: k < j < i ==> !h[j].About(h[i].display)
  {
    k := LastAboutMember(h[..i], h[i].display);
    assert forall j :: 0 <= j < i ==> h[..i][j] == h[j];
  }

  /** One session is redeemed at most once, and no two displays ever share a generation. */
  lemma OneStreamPerSession(h: History, next: nat, i: nat, j: nat)
    requires Proper(h, next) && i < j < |h| && h[i].Redeemed? && h[j].Redeemed?
    ensures h[i].generation != h[j].generation
  {
    var k := MadeAt(h, next, i);
    var m := MadeAt(h, next, j);
    if h[i].generation == h[j].generation {
      assert k == m;
      assert h[i].About(h[j].display);
    }
  }

  /** A token redeemed twice was issued anew in between. */
  lemma TokenSpentOnce(h: History, next: nat, i: nat, j: nat) returns (k: nat)
    requires Proper(h, next) && i < j < |h| && h[i].Redeemed? && h[j].Redeemed?
    requires h[i].display == h[j].display && h[i].token == h[j].token
    ensures i < k < j && h[k].Created? && h[k].display == h[j].display && h[k].token == h[j].token
  {
    k := MadeAt(h, next, j);
    assert h[i].About(h[j].display);
  }

  /** The exit of a child that was replaced names a generation that is no longer current, so
      it changes nothing. */
  lemma ReplacedChildIsStale(h: History, next: nat, id: DisplayId, i: nat, j: nat, ttl: Duration)
    requires Proper(h, next) && i < j < |h|
    requires h[i].Created? && h[i].display == id && h[j].Created? && h[j].display == id
    ensures LiveSession(h, id, ttl) ==> LastAbout(h, id).value.generation > h[i].generation
  {
    if LiveSession(h, id, ttl) {
      var k := LastAboutMember(h, id);
      assert h[j].About(id);
      if h[k].Redeemed? {
        var m := MadeAt(h, next, k);
        assert j <= m;
      }
    }
  }

  /** A tombstone never blames a token for what did not happen to it: a consumed token was
      redeemed in the session it was issued for, and the session of a stale one was ended,
      replaced or seen to have expired without being redeemed. */
  lemma TombstonesTell(retired: map<Token, Retired>, h: History, next: nat, ttl: Duration, token: Token)
    returns (made: nat, over: nat)
    requires RetiredTells(retired, h, ttl) && Proper(h, next) && token in retired
    ensures made < over < |h| && h[made].Created? && h[made].token == token && h[made].display == retired[token].display
    ensures forall k :: made < k < over ==> !h[k].About(retired[token].display)
    ensures match retired[token].reason
            case Consumed => h[over] == Redeemed(retired[token].display, token, h[made].generation)
            case StaleToken =>
              h[over] == Removed(retired[token].display) || (h[over].Seen? && h[over].now >= h[made].at + ttl)
  {
    var id := retired[token].display;
    assert TombstoneTrue(h, token, retired[token], ttl);
    match retired[token].reason
    case Consumed =>
      over :| WasRedeemed(h, id, token, over);
      made := MadeAt(h, next, over);
    case StaleToken =>
      made, over :| WentStale(h, id, token, ttl, made, over);
  }

  lemma {:induction false} InjectiveSize(ts: set<Token>, credentials: Credentials, ids: set<DisplayId>)
    requires forall t :: t in ts ==> t in credentials && credentials[t].display in ids
    requires forall t, u :: t in ts && u in ts && t != u ==> credentials[t].display != credentials[u].display
    ensures |ts| <= |ids|
    decreases |ts|
  {
    if ts != {} {
      var t :| t in ts;
      InjectiveSize(ts - {t}, credentials, ids - {credentials[t].display});
    }
  }

  /** There are never more live credentials than displays. */
  lemma CredentialsBounded(displays: Displays, credentials: Credentials)
    requires Paired(displays, credentials)
    ensures |credentials| <= |displays|
  {
    forall t, u | t in credentials && u in credentials && t != u
      ensures credentials[t].display != credentials[u].display
    {
      assert displays[credentials[t].display].pendingToken == Some(t);
    }
    InjectiveSize(credentials.Keys, credentials, displays.Keys);
  }
}
