/**
 The timers that close cancel windows. The server starts one after each accepted card or combo; it
 carries no action id and, when it fires, closes whatever window is open and past its expiry.
 */
module Timers {
  import opened Cards
  import opened Shuffling
  import opened Table
  import opened Rules
  import opened Invariant
  import opened Prompts
  import opened Recycle
  import opened Deal

  const TIMER_DELAY_MS := 5100

  // `window` says which pending action the timer was started for; the server itself does not know.
  datatype Timer = Timer(due: int, window: nat)

  /** The game, the clock, the running timers, and the windows whose timer is about to be started. */
  datatype Server = Server(state: State, clock: int, timers: seq<Timer>, owed: seq<nat>)

  datatype Event =
    | Wait(ms: nat)
    | Receive(command: Command, rnd: Random)
    | Schedule(k: nat)            // start the timer for the k-th window that still needs one
    | Fire(k: nat, rnd: Random)   // any timer that is due may fire, as late as it likes

  predicate OpensWindow(c: Command) {
    c.PlayCard? || c.PlayCombo?
  }

  /** Clients cannot close windows. */
  predicate FromClient(c: Command) {
    !c.ExpireCancelWindow? && !c.ResolveCancelWindow?
  }

  function Happen(v: Server, e: Event): Server {
    match e
    case Wait(ms) => v.(clock := v.clock + ms)
    case Receive(c, rnd) =>
      if !FromClient(c) then v
      else
        var o := Step(v.state, c, Env(v.clock, rnd));
        v.(state := o.state, owed := if OpensWindow(c) && o.error == NoError then v.owed + [o.state.nextPending]
            else v.owed)
    case Schedule(k) =>
      if k >= |v.owed| then v
      else v.(timers := v.timers + [Timer(v.clock + TIMER_DELAY_MS, v.owed[k])], owed := RemoveAt(v.owed, k))
    case Fire(k, rnd) =>
      if k >= |v.timers| || v.clock < v.timers[k].due then v
      else v.(timers := RemoveAt(v.timers, k), state := Expired(v.state, v.clock, rnd))
  }

  /** What a firing timer asks of the engine; whatever error comes back is ignored. */
  function Expired(s: State, now: int, rnd: Random): State {
    Step(s, ExpireCancelWindow(Some(now)), Env(now, rnd)).state
  }

  function History(v: Server, events: seq<Event>): Server {
    if events == [] then v else Happen(History(v, events[..|events| - 1]), events[|events| - 1])
  }

  // --------------------------------------------------------- what steps do to windows

  predicate WindowOpen(s: State, window: nat) {
    s.phase == CancelWindow && s.pending.Some? && s.pending.value.id == window
  }

  /** A state that is not a cancel window, reached without lowering the pending-id counter. */
  ghost predicate Past(s: State, t: State) {
    t.phase != CancelWindow && t.nextPending >= s.nextPending
  }

  lemma {:induction false} ProcessAllPast(s: State, ids: seq<PlayerId>, seen: set<PlayerId>)
    ensures ProcessAll(s, ids, seen).phase == s.phase && ProcessAll(s, ids, seen).nextPending == s.nextPending
    decreases |ids|
  {
    if ids != [] {
      if ids[0] in seen {
        ProcessAllPast(s, ids[1..], seen);
      } else {
        ProcessAllPast(Process(s, ids[0]), ids[1..], seen + {ids[0]});
      }
    }
  }

  lemma ResolvePast(s: State, original: PlayerId, ids: seq<PlayerId>)
    requires s.phase == PlayerTurn
    ensures Past(s, ResolveUnsafe(s, original, ids))
  {
    ProcessAllPast(s, ids, {});
  }

  lemma DrawnPast(s: State, i: nat, drawn: Card)
    requires i < |s.players| && s.phase == PlayerTurn
    ensures Past(s, ResolveDrawn(s, i, drawn))
  {
  }

  lemma StealPast(s: State, from: PlayerId, to: PlayerId, j: nat)
    requires s.phase == PlayerTurn
    requires Seat(s.players, from) >= 0 && Seat(s.players, to) >= 0 && j < |HandOf(s.players, from)|
    ensures Past(s, Steal(s, from, to, j))
  {
    ResolvePast(Move(s, Seat(s.players, from), j, Seat(s.players, to)), s.current, [from, to]);
  }

  lemma CardPast(s: State, code: Code, source: PlayerId, target: PlayerId, rnd: Random)
    requires IsSupportedAction(code) && s.phase == PlayerTurn
    ensures Past(s, ResolveCard(s, code, source, target, rnd).state)
  {
    if code == DrawFromBottom && s.draw != [] && AliveError(s.players, source) == NoError {
      var n := |s.draw| - 1;
      DrawnPast(s.(draw := s.draw[..n]), Seat(s.players, source), s.draw[n]);
    }
  }

  lemma ComboPast(s: State, p: Pending, rnd: Random)
    requires p.combo != NoCombo && s.phase == PlayerTurn
    ensures Past(s, ResolveCombo(s, p, rnd).state)
  {
    if p.combo in {Pair, Triple} && StealError(s.players, p.target, p.source) == NoError {
      var hand := HandOf(s.players, p.target);
      if p.combo == Pair && hand != [] {
        StealPast(s, p.target, p.source, Intn(rnd, 0, |hand|));
      }
      if p.combo == Triple && p.requested.Some? && IndexOfCode(hand, p.requested.value) >= 0 {
        StealPast(s, p.target, p.source, IndexOfCode(hand, p.requested.value));
      }
    }
  }

  lemma ResolvedPast(s: State, rnd: Random)
    requires ResolveGuard(s) == NoError
    ensures Past(s, ResolveEffect(s, rnd).state)
  {
    var p := s.pending.value;
    var s1 := Tick(s.(pending := None, phase := PlayerTurn), 1);
    if p.cancels % 2 == 0 {
      if p.kind == PlayedCard {
        CardPast(s1, p.cards[0].code, p.source, p.target, rnd);
      } else {
        ComboPast(s1, p, rnd);
      }
    }
  }

  lemma PlacePast(s: State, p: PlayerId, index: int)
    requires PlaceGuard(s, p, index) == NoError
    ensures Past(s, PlaceEffect(s, p, index))
  {
    var pending := s.pending.value;
    var s1 := Tick(s.(draw := InsertAt(s.draw, pending.cards[0], index), pending := None, phase := PlayerTurn), 1);
    if pending.reactive { ResolvePast(s1, pending.original, [pending.source]); }
  }

  lemma RequestPast(s: State, p: PlayerId, card: CardId, t: State)
    requires RequestGuard(s, p, card) == NoError && t == RequestEffect(s, p, card)
    ensures Past(s, t)
  {
    var s1 := Tick(s.(pending := None, phase := PlayerTurn), 1);
    StealPast(s1, p, s.pending.value.source, IndexOfId(HandOf(s.players, p), card));
  }

  lemma ClosePast(s: State, rnd: Random)
    requires s.pending.Some?
    ensures Past(s, CloseRecycle(s, rnd))
  {
    ResolvePast(Pooled(s, rnd), s.current, s.pending.value.recyclers);
  }

  lemma SubmitPast(s: State, p: PlayerId, card: CardId)
    requires RecycleGuard(s, p, card) == NoError
    ensures Past(s, Submit(s, p, card)) && Submit(s, p, card).pending.Some?
  {
  }

  lemma PastOn(s: State, t: State, u: State)
    requires Past(s, t) && Past(t, u)
    ensures Past(s, u)
  {
  }

  lemma ContinuedPast(s: State, x: Choice, rnd: Random)
    requires Takes(s, x)
    ensures Past(s, Continued(s, x, rnd))
  {
    var t := Submitted(s, x);
    SubmitPast(s, x.player, x.card);
    if Complete(t) {
      ClosePast(t, rnd);
      PastOn(s, t, CloseRecycle(t, rnd));
    }
  }

  lemma RecyclePast(s: State, p: PlayerId, card: CardId, rnd: Random)
    requires RecycleGuard(s, p, card) == NoError
    ensures Past(s, RecycleEffect(s, p, card, rnd))
  {
    SubmittedNext(s, Choice(p, card), rnd);
    ContinuedPast(s, Choice(p, card), rnd);
  }

  lemma RecoverPast(s: State, p: PlayerId, card: CardId)
    requires RecoverGuard(s, p, card) == NoError
    ensures Past(s, RecoverEffect(s, p, card))
  {
    var j := IndexOfId(s.discard, card);
    var s0 := Tick(s.(discard := RemoveAt(s.discard, j), pending := None, phase := PlayerTurn), 1);
    RecoverShape(s, p, card, j, s0);
    ResolvePast(Give(s0, Seat(s.players, p), s.discard[j]), s.current, [p]);
  }

  /** A played card or combo opens a fresh window that expires five seconds later. */
  ghost predicate Opens(s: State, t: State, now: int) {
    && s.phase == PlayerTurn && t.nextPending == s.nextPending + 1
    && WindowOpen(t, t.nextPending) && t.pending.value.expiresAt == now + CANCEL_WINDOW_MS
  }

  /** A window stays the same window. */
  ghost predicate Stays(s: State, t: State) {
    && s.phase == CancelWindow && s.pending.Some? && WindowOpen(t, s.pending.value.id) && t.nextPending == s.nextPending
    && t.pending.value.expiresAt == s.pending.value.expiresAt
  }

  lemma ComboOpens(s: State, p: PlayerId, ids: seq<CardId>, target: PlayerId, requested: Option<Code>, now: int)
    requires ComboGuard(s, p, ids, target, requested) == NoError
    ensures Opens(s, ComboEffect(s, p, ids, target, requested, now), now)
  {
  }

  /** From a turn or a prompt, a command opens a window only by playing. */
  lemma TurnCommands(s: State, c: Command, env: Env)
    requires Guard(s, c) == NoError && s.phase != CancelWindow
    ensures var t := Effect(s, c, env).state; if OpensWindow(c) then Opens(s, t, env.now) else Past(s, t)
  {
    match c
    case DrawCard(p) => DrawnPast(s.(draw := s.draw[1..]), Seat(s.players, p), s.draw[0]);
    case PlaceExplosive(p, index) => PlacePast(s, p, index);
    case PlayCard(p, ids, target) =>
    case PlayCombo(p, ids, target, requested) => ComboOpens(s, p, ids, target, requested, env.now);
    case ChooseCardForRequest(p, card) => RequestPast(s, p, card, RequestEffect(s, p, card));
    case ChooseMarkedCard(p, card) =>
    case SubmitReorderedTopCards(p, ids) =>
    case ChooseCardForRecycle(p, card) => RecyclePast(s, p, card, env.rnd);
    case ChooseCardFromDiscard(p, card) => RecoverPast(s, p, card);
  }

  /** In a window, a client can only cancel. */
  lemma WindowCommands(s: State, c: Command, env: Env)
    requires Guard(s, c) == NoError && s.phase == CancelWindow && FromClient(c)
    ensures c.PlayCancel? && Stays(s, Effect(s, c, env).state)
  {
  }

  // -------------------------------------------------------------- the invariant

  ghost predicate Known(v: Server) {
    && (forall t :: t in v.timers ==> t.window <= v.state.nextPending && t.due <= v.clock + TIMER_DELAY_MS)
    && (forall w :: w in v.owed ==> w <= v.state.nextPending)
  }

  /** The open window has a timer, running or about to be started, that fires after its expiry. */
  ghost predicate Covered(v: Server, w: nat) {
    w in v.owed || exists t :: t in v.timers && t.window == w
  }

  ghost predicate Timed(v: Server) {
    v.state.phase == CancelWindow ==>
      && v.state.pending.Some?
      && var p := v.state.pending.value;
      && p.id <= v.state.nextPending && 0 < p.expiresAt <= v.clock + CANCEL_WINDOW_MS
      && Covered(v, p.id)
      && forall t :: t in v.timers && t.window == p.id ==> t.due >= p.expiresAt
  }

  ghost predicate Sound(v: Server) {
    v.clock >= 0 && Inv(v.state) && Known(v) && Timed(v)
  }

  /** A received command, seen from the window. */
  ghost predicate Received(s: State, t: State, opens: bool, now: int) {
    || (!opens && (t == s || (s.phase == CancelWindow && Stays(s, t)) || (s.phase != CancelWindow && Past(s, t))))
    || (opens && Opens(s, t, now))
  }

  lemma ReceiveCases(s: State, c: Command, env: Env)
    requires FromClient(c)
    ensures var o := Step(s, c, env); Received(s, o.state, OpensWindow(c) && o.error == NoError, env.now)
  {
    if Guard(s, c) == NoError {
      if s.phase == CancelWindow {
        WindowCommands(s, c, env);
      } else {
        TurnCommands(s, c, env);
      }
    }
  }

  lemma ReceiveKeeps(v: Server, t: Server, opens: bool)
    requires v.clock >= 0 && Known(v) && Timed(v) && Received(v.state, t.state, opens, v.clock)
    requires t == v.(state := t.state, owed := if opens then v.owed + [t.state.nextPending] else v.owed)
    ensures Known(t) && Timed(t)
  {
  }

  lemma ScheduleKeeps(v: Server, t: Server, k: nat)
    requires v.clock >= 0 && Known(v) && Timed(v) && k < |v.owed|
    requires t == v.(timers := v.timers + [Timer(v.clock + TIMER_DELAY_MS, v.owed[k])], owed := RemoveAt(v.owed, k))
    ensures Known(t) && Timed(t)
  {
    var timer := Timer(v.clock + TIMER_DELAY_MS, v.owed[k]);
    assert v.owed[k] in v.owed;
    assert forall w :: w in t.owed ==> w in v.owed;
    assert forall w :: w in v.owed ==> w in t.owed || w == timer.window by {
      assert v.owed == v.owed[..k] + [v.owed[k]] + v.owed[k + 1..];
    }
    assert timer in t.timers && forall x :: x in t.timers ==> x in v.timers || x == timer;
    assert forall x :: x in v.timers ==> x in t.timers;
  }

  /** The window is open and its time is up. */
  predicate Ripe(s: State, now: int) {
    s.phase == CancelWindow && s.pending.Some? && !(s.pending.value.expiresAt > 0 && now < s.pending.value.expiresAt)
  }

  lemma RipeGuard(s: State, now: int)
    requires s.phase == CancelWindow ==> s.pending.Some? && IsCancelable(s.pending.value)
    ensures ExpireGuard(s, Some(now)) == NoError <==> Ripe(s, now)
  {
  }

  lemma WindowCancelable(s: State)
    requires Inv(s)
    ensures s.phase == CancelWindow ==> s.pending.Some? && IsCancelable(s.pending.value)
  {
  }

  lemma ExpireIsResolve(s: State, c: Command, env: Env)
    requires c.ExpireCancelWindow? && ExpireGuard(s, c.at) == NoError
    ensures ResolveGuard(s) == NoError && Step(s, c, env) == ResolveEffect(s, env.rnd)
  {
  }

  lemma ExpireRefused(s: State, c: Command, env: Env)
    requires c.ExpireCancelWindow? && ExpireGuard(s, c.at) != NoError
    ensures Step(s, c, env).state == s
  {
  }

  /** What a timer does when it fires: it closes a window whose time is up, and otherwise nothing. */
  lemma FireCases(s: State, now: int, rnd: Random)
    requires Inv(s)
    ensures if Ripe(s, now) then Past(s, Expired(s, now, rnd)) else Expired(s, now, rnd) == s
  {
    var c, env := ExpireCancelWindow(Some(now)), Env(now, rnd);
    WindowCancelable(s);
    RipeGuard(s, now);
    if Ripe(s, now) {
      ExpireIsResolve(s, c, env);
      ResolvedPast(s, rnd);
    } else {
      ExpireRefused(s, c, env);
    }
  }

  lemma StillCovered(v: Server, k: nat, w: nat)
    requires k < |v.timers| && Covered(v, w) && v.timers[k].window != w
    ensures Covered(v.(timers := RemoveAt(v.timers, k)), w)
  {
    if w !in v.owed {
      var t :| t in v.timers && t.window == w;
      assert v.timers == v.timers[..k] + [v.timers[k]] + v.timers[k + 1..];
      assert t in RemoveAt(v.timers, k);
    }
  }

  lemma FireKeeps(v: Server, k: nat, t: State)
    requires v.clock >= 0 && Known(v) && Timed(v) && k < |v.timers| && v.clock >= v.timers[k].due
    requires if Ripe(v.state, v.clock) then Past(v.state, t) else t == v.state
    ensures Known(v.(timers := RemoveAt(v.timers, k), state := t))
    ensures Timed(v.(timers := RemoveAt(v.timers, k), state := t))
  {
    var rest := RemoveAt(v.timers, k);
    assert forall x :: x in rest ==> x in v.timers;
    if t == v.state && t.phase == CancelWindow {
      assert v.timers[k] in v.timers;
      StillCovered(v, k, t.pending.value.id);
    }
  }

  lemma HappenReceive(v: Server, c: Command, rnd: Random)
    requires Sound(v) && FromClient(c)
    ensures Sound(Happen(v, Receive(c, rnd)))
  {
    var env := Env(v.clock, rnd);
    StepKeeps(v.state, c, env);
    ReceiveCases(v.state, c, env);
    ReceiveSound(v, Happen(v, Receive(c, rnd)), OpensWindow(c) && Step(v.state, c, env).error == NoError);
  }

  lemma ReceiveSound(v: Server, t: Server, opens: bool)
    requires Sound(v) && Inv(t.state) && Received(v.state, t.state, opens, v.clock)
    requires t == v.(state := t.state, owed := if opens then v.owed + [t.state.nextPending] else v.owed)
    ensures Sound(t)
  {
    ReceiveKeeps(v, t, opens);
  }

  lemma ExpiredKeeps(s: State, now: int, rnd: Random)
    requires Inv(s)
    ensures Inv(Expired(s, now, rnd))
    ensures if Ripe(s, now) then Past(s, Expired(s, now, rnd)) else Expired(s, now, rnd) == s
  {
    StepKeeps(s, ExpireCancelWindow(Some(now)), Env(now, rnd));
    FireCases(s, now, rnd);
  }

  lemma FireShape(v: Server, k: nat, rnd: Random)
    requires k < |v.timers| && v.clock >= v.timers[k].due
    ensures Happen(v, Fire(k, rnd)) == v.(timers := RemoveAt(v.timers, k), state := Expired(v.state, v.clock, rnd))
  {
  }

  lemma HappenFire(v: Server, k: nat, rnd: Random)
    requires Sound(v) && k < |v.timers| && v.clock >= v.timers[k].due
    ensures Sound(Happen(v, Fire(k, rnd)))
  {
    FireShape(v, k, rnd);
    ExpiredKeeps(v.state, v.clock, rnd);
    FireSound(v, k, Expired(v.state, v.clock, rnd));
  }

  lemma FireSound(v: Server, k: nat, t: State)
    requires Sound(v) && k < |v.timers| && v.clock >= v.timers[k].due && Inv(t)
    requires if Ripe(v.state, v.clock) then Past(v.state, t) else t == v.state
    ensures Sound(v.(timers := RemoveAt(v.timers, k), state := t))
  {
    FireKeeps(v, k, t);
  }

  lemma ScheduleShape(v: Server, k: nat)
    requires k < |v.owed|
    ensures Happen(v, Schedule(k))
          == v.(timers := v.timers + [Timer(v.clock + TIMER_DELAY_MS, v.owed[k])], owed := RemoveAt(v.owed, k))
  {
  }

  lemma HappenSchedule(v: Server, k: nat)
    requires Sound(v) && k < |v.owed|
    ensures Sound(Happen(v, Schedule(k)))
  {
    ScheduleShape(v, k);
    ScheduleSound(v, Happen(v, Schedule(k)), k);
  }

  lemma ScheduleSound(v: Server, t: Server, k: nat)
    requires Sound(v) && k < |v.owed|
    requires t == v.(timers := v.timers + [Timer(v.clock + TIMER_DELAY_MS, v.owed[k])], owed := RemoveAt(v.owed, k))
    ensures Sound(t)
  {
    ScheduleKeeps(v, t, k);
  }

  lemma HappenWait(v: Server, ms: nat)
    requires Sound(v)
    ensures Sound(Happen(v, Wait(ms)))
  {
  }

  lemma HappenKeeps(v: Server, e: Event)
    requires Sound(v)
    ensures Sound(Happen(v, e))
  {
    match e
    case Wait(ms) => HappenWait(v, ms);
    case Receive(c, rnd) =>
      if FromClient(c) { HappenReceive(v, c, rnd); }
    case Schedule(k) =>
      if k < |v.owed| { HappenSchedule(v, k); }
    case Fire(k, rnd) =>
      if k < |v.timers| && v.clock >= v.timers[k].due { HappenFire(v, k, rnd); }
  }

  lemma {:induction false} HistoryKeeps(v: Server, events: seq<Event>)
    requires Sound(v)
    ensures Sound(History(v, events))
  {
    if events != [] {
      HistoryKeeps(v, events[..|events| - 1]);
      HappenKeeps(History(v, events[..|events| - 1]), events[|events| - 1]);
    }
  }

  /** A server with a game just started. */
  function Launched(s: State, clock: nat): Server {
    Server(s, clock, [], [])
  }

  lemma LaunchedSound(s: State, ids: seq<PlayerId>, clock: nat)
    requires FreshTable(s, ids)
    ensures Sound(Launched(s, clock))
  {
    FreshInv(s, ids);
  }

  // ------------------------------------------------------------------- theorems

  /**
   Never early: however commands, cancels and stale timers interleave, a window only closes by a
   timer, and only once it has expired.
   */
  lemma NeverEarly(s: State, ids: seq<PlayerId>, clock: nat, events: seq<Event>, e: Event, w: nat)
    requires FreshTable(s, ids)
    ensures var v := History(Launched(s, clock), events);
      WindowOpen(v.state, w) && !WindowOpen(Happen(v, e).state, w) ==>
        e.Fire? && v.clock >= v.state.pending.value.expiresAt
  {
    LaunchedSound(s, ids, clock);
    HistoryKeeps(Launched(s, clock), events);
    var v := History(Launched(s, clock), events);
    if WindowOpen(v.state, w) && !WindowOpen(Happen(v, e).state, w) {
      ClosedByTimer(v, e, w);
    }
  }

  lemma ClosedByTimer(v: Server, e: Event, w: nat)
    requires Sound(v) && WindowOpen(v.state, w) && !WindowOpen(Happen(v, e).state, w)
    ensures e.Fire? && v.clock >= v.state.pending.value.expiresAt
  {
    if e.Receive? && FromClient(e.command) {
      ReceiveCases(v.state, e.command, Env(v.clock, e.rnd));
    }
    if e.Fire? {
      FireCases(v.state, v.clock, e.rnd);
    }
  }

  /**
   Never forgotten: every open window has a timer of its own, running or about to be started, due
   after the expiry and within the timer delay from now.
   */
  lemma NeverForgotten(s: State, ids: seq<PlayerId>, clock: nat, events: seq<Event>, w: nat)
    requires FreshTable(s, ids)
    ensures var v := History(Launched(s, clock), events);
      WindowOpen(v.state, w) && w !in v.owed ==>
        exists t :: t in v.timers && t.window == w
            && v.state.pending.value.expiresAt <= t.due <= v.clock + TIMER_DELAY_MS
  {
    LaunchedSound(s, ids, clock);
    HistoryKeeps(Launched(s, clock), events);
    var v := History(Launched(s, clock), events);
    if WindowOpen(v.state, w) && w !in v.owed {
      var t :| t in v.timers && t.window == w;
    }
  }

  /**
   When its own timer fires, a window is closed, by this timer or already before, and whatever happens
   later, no window with that id is ever open again.
   */
  lemma OwnTimerCloses(s: State, ids: seq<PlayerId>, clock: nat, events: seq<Event>, k: nat, rnd: Random,
      later: seq<Event>)
    requires FreshTable(s, ids)
    ensures var v := History(Launched(s, clock), events);
      k < |v.timers| && v.clock >= v.timers[k].due ==>
        !WindowOpen(History(Happen(v, Fire(k, rnd)), later).state, v.timers[k].window)
  {
    LaunchedSound(s, ids, clock);
    HistoryKeeps(Launched(s, clock), events);
    var v := History(Launched(s, clock), events);
    if k < |v.timers| && v.clock >= v.timers[k].due {
      ClosedByOwn(v, k, rnd);
      HappenFire(v, k, rnd);
      NeverReopens(Happen(v, Fire(k, rnd)), later, v.timers[k].window);
    }
  }

  /** The window is in the past: it is not open, and its id has been used up. */
  ghost predicate Over(s: State, w: nat) {
    !WindowOpen(s, w) && w <= s.nextPending
  }

  lemma FiredStaysOver(v: Server, k: nat, rnd: Random, w: nat)
    requires Sound(v) && Over(v.state, w) && k < |v.timers| && v.clock >= v.timers[k].due
    ensures Over(Happen(v, Fire(k, rnd)).state, w)
  {
    FireShape(v, k, rnd);
    ExpiredKeeps(v.state, v.clock, rnd);
  }

  lemma ReceivedStaysOver(s: State, t: State, opens: bool, now: int, w: nat)
    requires Received(s, t, opens, now) && Over(s, w)
    ensures Over(t, w)
  {
  }

  lemma StaysOver(v: Server, e: Event, w: nat)
    requires Sound(v) && Over(v.state, w)
    ensures Over(Happen(v, e).state, w)
  {
    match e
    case Wait(_) =>
    case Schedule(_) =>
    case Receive(c, rnd) =>
      if FromClient(c) {
        var o := Step(v.state, c, Env(v.clock, rnd));
        ReceiveCases(v.state, c, Env(v.clock, rnd));
        ReceivedStaysOver(v.state, o.state, OpensWindow(c) && o.error == NoError, v.clock, w);
      }
    case Fire(k, rnd) =>
      if k < |v.timers| && v.clock >= v.timers[k].due { FiredStaysOver(v, k, rnd, w); }
  }

  lemma {:induction false} NeverReopens(v: Server, events: seq<Event>, w: nat)
    requires Sound(v) && Over(v.state, w)
    ensures Over(History(v, events).state, w)
  {
    if events != [] {
      var front := events[..|events| - 1];
      NeverReopens(v, front, w);
      HistoryKeeps(v, front);
      StaysOver(History(v, front), events[|events| - 1], w);
    }
  }

  lemma ClosedByOwn(v: Server, k: nat, rnd: Random)
    requires Sound(v) && k < |v.timers| && v.clock >= v.timers[k].due
    ensures Over(Happen(v, Fire(k, rnd)).state, v.timers[k].window)
  {
    FireShape(v, k, rnd);
    ExpiredKeeps(v.state, v.clock, rnd);
    assert v.timers[k] in v.timers;
    if WindowOpen(v.state, v.timers[k].window) { OwnIsRipe(v, k); }
  }

  /** A due timer of the open window finds its time up. */
  lemma OwnIsRipe(v: Server, k: nat)
    requires Timed(v) && k < |v.timers| && v.clock >= v.timers[k].due && WindowOpen(v.state, v.timers[k].window)
    ensures Ripe(v.state, v.clock)
  {
    assert v.timers[k] in v.timers;
  }
}
