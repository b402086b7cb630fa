/** DeathMovesController (scripts/main.js) and the button listeners of
    DeathUI._attachListeners (scripts/ui.js): what a client does with a socket
    message, the GM's trigger flow, the countdown and the option callbacks. */
module Controller {
  import opened Values
  import opened Constants
  import opened Outcome
  import opened World
  import opened Effects
  import opened Messages
  import opened Page
  import opened Handlers
  import opened ChatCard

  // ---- the socket message handler ----

  /** The arms of the `switch (payload.type)` in init. */
  datatype Route = ShowUIArm | PlayMediaArm | PlaySoundArm | ShowBorderArm | RemoveBorderArm | NoArm

  /** The switch compares with === against each case in order and takes the
      first that matches; a case whose name SOCKET_TYPES lacks is `undefined`. */
  function Dispatch(types: StringTable, t: JsValue): Route
  {
    if t == Lookup(types, "SHOW_UI") then ShowUIArm
    else if t == Lookup(types, "PLAY_MEDIA") then PlayMediaArm
    else if t == Lookup(types, "PLAY_SOUND") then PlaySoundArm
    else if t == Lookup(types, "SHOW_BORDER") then ShowBorderArm
    else if t == Lookup(types, "REMOVE_BORDER") then RemoveBorderArm
    else NoArm
  }

  /** With SOCKET_TYPES as defined, a message without a known type lands in the
      SHOW_BORDER arm and the REMOVE_BORDER arm is never taken. */
  lemma DispatchAsWritten(t: JsValue)
    ensures Dispatch(SOCKET_TYPES, t) == RemoveBorderArm ==> false
    ensures Dispatch(SOCKET_TYPES, t) == ShowBorderArm <==> t == Undefined
    ensures Dispatch(SOCKET_TYPES, t) == ShowUIArm <==> t == Str("SHOW_UI")
    ensures Dispatch(SOCKET_TYPES, t) == PlayMediaArm <==> t == Str("PLAY_MEDIA")
    ensures Dispatch(SOCKET_TYPES, t) == PlaySoundArm <==> t == Str("PLAY_SOUND")
  {
    BorderTypesUndefined();
  }

  /** With the corrected table every type reaches its own arm and a message
      without a type reaches none. */
  lemma DispatchFixed(t: JsValue)
    ensures Dispatch(SOCKET_TYPES_FIXED, t) == ShowUIArm <==> t == Str("SHOW_UI")
    ensures Dispatch(SOCKET_TYPES_FIXED, t) == PlayMediaArm <==> t == Str("PLAY_MEDIA")
    ensures Dispatch(SOCKET_TYPES_FIXED, t) == PlaySoundArm <==> t == Str("PLAY_SOUND")
    ensures Dispatch(SOCKET_TYPES_FIXED, t) == ShowBorderArm <==> t == Str("SHOW_BORDER")
    ensures Dispatch(SOCKET_TYPES_FIXED, t) == RemoveBorderArm <==> t == Str("REMOVE_BORDER")
    ensures Dispatch(SOCKET_TYPES_FIXED, Undefined) == NoArm
  {
    FixedTypesDefined();
    BorderTypesUndefined();
  }

  /** _handleShowUI acts only on the client the message names. */
  predicate IsTarget(env: Env, p: Payload)
  {
    Str(env.userId) == Prop(p, "targetUserId")
  }

  /** What a client records on receiving a payload. */
  function ReceivedEvents(env: Env, p: Payload): seq<Event>
  {
    match Dispatch(env.socketTypes, Prop(p, "type"))
    case ShowUIArm => if IsTarget(env, p) then [SoundPlayed(Str("soundRollScreen")), OverlayCreated(false)] else []
    case PlayMediaArm => [MediaPlayed(Prop(p, "mediaKey"))]
    case PlaySoundArm => [SoundPlayed(Prop(p, "soundKey"))]
    case ShowBorderArm => [BorderShown(Prop(p, "borderType"))]
    case RemoveBorderArm => [BorderRemoved]
    case NoArm => []
  }

  /** The border of a client after it receives a payload. */
  function ReceivedBorder(env: Env, p: Payload, b: Option<Border>): Option<Border>
  {
    match Dispatch(env.socketTypes, Prop(p, "type"))
    case ShowBorderArm => Some(BorderFor(Prop(p, "borderType")))
    case RemoveBorderArm => None
    case _ => b
  }

  /** The option overlay of a client after it receives a payload. */
  function ReceivedOverlay(env: Env, p: Payload, o: Option<Overlay>): Option<Overlay>
  {
    if Dispatch(env.socketTypes, Prop(p, "type")) == ShowUIArm && IsTarget(env, p) then
      Some(NewOverlay(false, ChosenProbs(env, false, None), AssetPath(env.config, Some("backgroundPath"))))
    else o
  }

  /** _handleShowUI(payload) */
  method HandleShowUI(page: Page, env: Env, payload: Payload)
    modifies page, page.log
    ensures page.log.events == old(page.log.events)
      + (if IsTarget(env, payload) then [SoundPlayed(Str("soundRollScreen")), OverlayCreated(false)] else [])
    ensures page.overlay == (if IsTarget(env, payload) then
      Some(NewOverlay(false, ChosenProbs(env, false, None), AssetPath(env.config, Some("backgroundPath"))))
      else old(page.overlay))
    ensures page.border == old(page.border)
  {
    if Str(env.userId) != Prop(payload, "targetUserId") {
      assert page.log.events == page.log.events + [];
      return;
    }
    page.CreateOverlay(env, false, None);
  }

  /** The handler registered with game.socket.on in init. */
  method OnSocketMessage(page: Page, env: Env, payload: Payload)
    modifies page, page.log
    ensures page.log.events == old(page.log.events) + ReceivedEvents(env, payload)
    ensures page.border == ReceivedBorder(env, payload, old(page.border))
    ensures page.overlay == ReceivedOverlay(env, payload, old(page.overlay))
  {
    var types := env.socketTypes;
    var t := Prop(payload, "type");
    if t == Lookup(types, "SHOW_UI") {
      HandleShowUI(page, env, payload);
    } else if t == Lookup(types, "PLAY_MEDIA") {
      page.log.Record(MediaPlayed(Prop(payload, "mediaKey")));
    } else if t == Lookup(types, "PLAY_SOUND") {
      page.log.Record(SoundPlayed(Prop(payload, "soundKey")));
    } else if t == Lookup(types, "SHOW_BORDER") {
      page.ShowBorderEffect(Prop(payload, "borderType"));
    } else if t == Lookup(types, "REMOVE_BORDER") {
      page.RemoveBorderEffect();
    } else {
      assert page.log.events == page.log.events + [];
    }
  }

  // ---- the GM's trigger flow ----

  /** game.users.filter(u => u.active && !u.isGM) */
  function Eligible(users: seq<User>): seq<User>
  {
    if users == [] then []
    else (if users[0].active && !users[0].isGM then [users[0]] else []) + Eligible(users[1..])
  }

  /** The users offered are exactly the active players who are not GMs. */
  lemma {:induction false} EligibleMembers(users: seq<User>)
    ensures forall u :: u in Eligible(users) <==> u in users && u.active && !u.isGM
    ensures |Eligible(users)| <= |users|
  {
    if users != [] {
      EligibleMembers(users[1..]);
      assert forall u :: u in users <==> u == users[0] || u in users[1..];
    }
  }

  function Ids(users: seq<User>): seq<string>
  {
    seq(|users|, i requires 0 <= i < |users| => users[i].id)
  }

  const GM_ONLY_WARNING: string := "Only the GM can trigger this."
  const NO_PLAYERS_WARNING: string := "No players connected."
  const SENT_NOTICE: string := "Death Moves sent to player."

  /** gmTriggerFlow, with `choice` the value the dialog resolves to: the
      selected player's id, or nothing when it is closed. */
  function TriggerEvents(env: Env, users: seq<User>, choice: Option<string>): seq<Event>
  {
    if !env.isGM then [Warned(GM_ONLY_WARNING)]
    else if |Eligible(users)| == 0 then [Warned(NO_PLAYERS_WARNING)]
    else
      [DialogOpened(Ids(Eligible(users)))]
      + (if choice.Some? && choice.value != "" then
           [Emitted(ShowUIPayload(env.socketTypes, choice.value)), Notified(SENT_NOTICE)]
         else [])
  }

  method GmTriggerFlow(log: Log, env: Env, users: seq<User>, choice: Option<string>)
    modifies log
    ensures log.events == old(log.events) + TriggerEvents(env, users, choice)
  {
    if !env.isGM {
      log.Record(Warned(GM_ONLY_WARNING));
      return;
    }
    var eligible := Eligible(users);
    if |eligible| == 0 {
      log.Record(Warned(NO_PLAYERS_WARNING));
      return;
    }
    log.Record(DialogOpened(Ids(eligible)));
    if choice.Some? && choice.value != "" {
      log.Record(Emitted(ShowUIPayload(env.socketTypes, choice.value)));
      log.Record(Notified(SENT_NOTICE));
    } else {
      assert log.events == log.events + [];
    }
  }

  /** Only a GM with at least one eligible player opens the dialog; the screen is
      sent at most once, only after a player was chosen, and to that player; a
      confirmed choice sends it exactly once, followed by the notice. */
  lemma TriggerRules(env: Env, users: seq<User>, choice: Option<string>)
    ensures var s := TriggerEvents(env, users, choice);
      && (DialogOpened(Ids(Eligible(users))) in s <==> env.isGM && |Eligible(users)| > 0)
      && (forall i :: 0 <= i < |s| && s[i].Emitted? ==>
            && i == 1 && env.isGM && choice.Some? && choice.value != ""
            && Prop(s[i].payload, "targetUserId") == Str(choice.value)
            && Prop(s[i].payload, "type") == Lookup(env.socketTypes, "SHOW_UI"))
      && (!env.isGM ==> s == [Warned(GM_ONLY_WARNING)])
      && (env.isGM && |Eligible(users)| == 0 ==> s == [Warned(NO_PLAYERS_WARNING)])
      && (env.isGM && |Eligible(users)| > 0 && choice.Some? && choice.value != "" ==>
            && |s| == 3 && s[1].Emitted? && s[2] == Notified(SENT_NOTICE))
      && (env.isGM && |Eligible(users)| > 0 && !(choice.Some? && choice.value != "") ==>
            s == [DialogOpened(Ids(Eligible(users)))])
  {
    PayloadFields(env.socketTypes, if choice.Some? then choice.value else "");
  }

  /** The player the GM picks is one of the users offered. */
  lemma DialogOffersEligible(users: seq<User>, i: int)
    requires 0 <= i < |Eligible(users)|
    ensures exists u :: u in users && u.active && !u.isGM && u.id == Ids(Eligible(users))[i]
  {
    EligibleMembers(users);
    assert Eligible(users)[i] in Eligible(users);
  }

  // ---- the countdown ----

  /** The numbers from..downTo+1 shown on the button, each followed by one second. */
  function Ticks(target: string, from: int, downTo: int): seq<Event>
    decreases from - downTo
  {
    if from <= downTo then []
    else [CountdownShown(target, from), Waited(1000)] + Ticks(target, from - 1, downTo)
  }

  lemma {:induction false} TicksExtend(target: string, from: int, downTo: int)
    requires downTo <= from
    ensures Ticks(target, from, downTo - 1) == Ticks(target, from, downTo) + [CountdownShown(target, downTo), Waited(1000)]
    decreases from - downTo
  {
    var head := [CountdownShown(target, from), Waited(1000)];
    var last := [CountdownShown(target, downTo), Waited(1000)];
    if from == downTo {
      assert Ticks(target, from, downTo - 1) == last + [];
    } else if from - 1 > downTo {
      TicksExtend(target, from - 1, downTo);
      Assoc(head, Ticks(target, from - 1, downTo), last);
    } else {
      assert Ticks(target, from, downTo) == head + [];
      assert Ticks(target, from - 1, downTo - 1) == last + [];
    }
  }

  /** The countdown shows d, d-1, ..., 1, each for one second. */
  lemma {:induction false} TicksShape(target: string, d: int)
    requires d >= 0
    ensures |Ticks(target, d, 0)| == 2 * d
    ensures forall k :: 0 <= k < d ==>
      Ticks(target, d, 0)[2 * k] == CountdownShown(target, d - k) && Ticks(target, d, 0)[2 * k + 1] == Waited(1000)
  {
    if d > 0 {
      TicksShape(target, d - 1);
      var t := Ticks(target, d, 0);
      var rest := Ticks(target, d - 1, 0);
      assert t == [CountdownShown(target, d), Waited(1000)] + rest;
      forall k | 0 <= k < d
        ensures t[2 * k] == CountdownShown(target, d - k) && t[2 * k + 1] == Waited(1000)
      {
        if k > 0 {
          assert t[2 * k] == rest[2 * (k - 1)];
          assert t[2 * k + 1] == rest[2 * (k - 1) + 1];
        }
      }
    }
  }

  /** _runCountdown(button) */
  function CountdownEvents(env: Env, target: string): seq<Event>
  {
    [SoundStopped]
    + (if env.config.countdownDuration <= 0 then []
       else SoundEverywhere(env, "soundSuspense") + Ticks(target, env.config.countdownDuration, 0))
  }

  method RunCountdown(page: Page, env: Env, target: string)
    modifies page, page.log
    ensures page.log.events == old(page.log.events) + CountdownEvents(env, target)
    ensures page.overlay == (if env.config.countdownDuration <= 0 then old(page.overlay)
                             else CountdownSpec(old(page.overlay), target, 1))
    ensures page.border == old(page.border)
  {
    page.log.Record(SoundStopped);
    var duration := env.config.countdownDuration;
    if duration <= 0 {
      return;
    }
    PlaySoundEverywhere(page.log, env, "soundSuspense");
    ghost var e1 := page.log.events;
    ghost var o0 := page.overlay;
    var i := duration;
    while i > 0
      invariant 0 <= i <= duration
      invariant page.log.events == e1 + Ticks(target, duration, i)
      invariant page.overlay == if i == duration then o0 else CountdownSpec(o0, target, i + 1)
      invariant page.border == old(page.border)
    {
      page.UpdateCountdown(target, i);
      page.log.Record(Waited(1000));
      TicksExtend(target, duration, i);
      Assoc(e1, Ticks(target, duration, i), [CountdownShown(target, i), Waited(1000)]);
      if i < duration {
        CountdownLastWins(o0, target, i + 1, i);
      }
      i := i - 1;
    }
    Assoc(old(page.log.events) + [SoundStopped], SoundEverywhere(env, "soundSuspense"), Ticks(target, duration, 0));
    Assoc(old(page.log.events), [SoundStopped], SoundEverywhere(env, "soundSuspense") + Ticks(target, duration, 0));
  }

  /** Each tick shows a number and waits one second; ticks play nothing and roll nothing. */
  lemma {:induction false} TicksQuiet(target: string, from: int, downTo: int)
    requires downTo <= from
    ensures var t := Ticks(target, from, downTo);
      && MediaKeys(t) == [] && SoundKeys(t) == [] && ChatCount(t) == 0 && NoRoll(t)
      && TotalWait(t) == 1000 * (from - downTo)
    decreases from - downTo
  {
    if from > downTo {
      var head, rest := [CountdownShown(target, from), Waited(1000)], Ticks(target, from - 1, downTo);
      TicksQuiet(target, from - 1, downTo);
      Silent(head);
      PlayedAppend(head, rest);
      TotalWaitAppend(head, rest);
      assert TotalWait(head) == 1000 by { assert head[1..][1..] == []; }
      assert NoRoll(head);
      NoRollAppend(head, rest);
    }
  }

  /** The countdown stops the current sound, plays the suspense sound once and
      lasts one second per count when the duration is positive, and does
      nothing else otherwise. */
  lemma CountdownPlays(env: Env, target: string)
    ensures var c := CountdownEvents(env, target);
      var d := env.config.countdownDuration;
      && c[0] == SoundStopped
      && SoundKeys(c) == (if d > 0 then [Str("soundSuspense")] else [])
      && MediaKeys(c) == [] && ChatCount(c) == 0 && NoRoll(c)
      && TotalWait(c) == (if d > 0 then 1000 * d else 0)
      && (d <= 0 ==> c == [SoundStopped])
  {
    var d := env.config.countdownDuration;
    PlayedByOne(SoundStopped);
    assert TotalWait([SoundStopped]) == 0 by { assert [SoundStopped][1..] == []; }
    if d > 0 {
      var sound := SoundEverywhere(env, "soundSuspense");
      EverywherePlaysOnce(env, "soundSuspense");
      Silent([sound[0]]);
      TicksQuiet(target, d, 0);
      PlayedAppend(sound, Ticks(target, d, 0));
      PlayedAppend([SoundStopped], sound + Ticks(target, d, 0));
      assert TotalWait(sound) == 0 by { assert sound[1..][1..] == []; }
      TotalWaitAppend(sound, Ticks(target, d, 0));
      TotalWaitAppend([SoundStopped], sound + Ticks(target, d, 0));
    } else {
      assert CountdownEvents(env, target) == [SoundStopped] + [];
    }
  }

  // ---- the option callbacks of _handleShowUI ----

  /** onAvoid: the countdown, then handleAvoidDeath, which is not awaited, so
      the overlay goes as soon as it reaches its first await. */
  function OnAvoidEvents(env: Env, target: string, raw: int): seq<Event>
  {
    CountdownEvents(env, target) + (AvoidBegin(env) + [OverlayRemoved] + AvoidFinish(env, raw))
  }

  /** onRisk: the countdown, the overlay removed, then the mode the
      riskItAllDoubleRoll setting picks. */
  function OnRiskEvents(env: Env, target: string, hope: int, fear: int): seq<Event>
  {
    CountdownEvents(env, target)
    + ([OverlayRemoved]
       + if env.config.riskItAllDoubleRoll then RiskItAllSequential(env, hope, fear) else RiskItAll(env, hope, fear))
  }

  /** onBlaze: no countdown; the overlay goes from inside handleBlazeOfGlory. */
  function OnBlazeEvents(env: Env): seq<Event>
  {
    BlazeOfGlory(env, true)
  }

  method OnAvoid(page: Page, env: Env, target: string, raw: int)
    requires IsFace(raw)
    modifies page, page.log
    ensures page.log.events == old(page.log.events) + OnAvoidEvents(env, target, raw)
    ensures page.overlay.None? && page.border.None?
  {
    RunCountdown(page, env, target);
    ghost var e1 := page.log.events;
    AvoidDeathBegin(page, env);
    page.RemoveOverlay();
    AvoidDeathFinish(page, env, raw);
    Assoc(e1, AvoidBegin(env) + [OverlayRemoved], AvoidFinish(env, raw));
    Assoc(e1, AvoidBegin(env), [OverlayRemoved]);
    Assoc(old(page.log.events), CountdownEvents(env, target), AvoidBegin(env) + [OverlayRemoved] + AvoidFinish(env, raw));
  }

  method OnRisk(page: Page, env: Env, target: string, hope: int, fear: int)
    requires IsFace(hope) && IsFace(fear)
    modifies page, page.log
    ensures page.log.events == old(page.log.events) + OnRiskEvents(env, target, hope, fear)
    ensures page.overlay.None?
    ensures page.border == (if env.config.riskItAllDoubleRoll then None else old(page.border))
  {
    RunCountdown(page, env, target);
    ghost var e1 := page.log.events;
    page.RemoveOverlay();
    var doubleRollMode := env.config.riskItAllDoubleRoll;
    if doubleRollMode {
      HandleRiskItAllSequential(page, env, hope, fear);
      Assoc(e1, [OverlayRemoved], RiskItAllSequential(env, hope, fear));
    } else {
      HandleRiskItAll(page, env, hope, fear);
      Assoc(e1, [OverlayRemoved], RiskItAll(env, hope, fear));
    }
    Assoc(old(page.log.events), CountdownEvents(env, target),
      [OverlayRemoved] + if doubleRollMode then RiskItAllSequential(env, hope, fear) else RiskItAll(env, hope, fear));
  }

  method OnBlaze(page: Page, env: Env)
    modifies page, page.log
    ensures page.log.events == old(page.log.events) + OnBlazeEvents(env)
    ensures page.overlay.None? && page.border == old(page.border)
  {
    HandleBlazeOfGlory(page, env, true);
  }

  /** onCancel */
  method OnCancel(page: Page)
    modifies page.log
    ensures page.log.events == old(page.log.events) + [SoundStopped]
  {
    page.log.Record(SoundStopped);
  }

  /** Every countdown number is shown before any die is rolled. */
  lemma CountdownBeforeRoll(env: Env, target: string, raw: int, hope: int, fear: int)
    ensures var s := OnAvoidEvents(env, target, raw);
      forall i, j :: 0 <= i < |s| && 0 <= j < |s| && s[i].CountdownShown? && s[j].DiceRolled? ==> i < j
    ensures var s := OnRiskEvents(env, target, hope, fear);
      forall i, j :: 0 <= i < |s| && 0 <= j < |s| && s[i].CountdownShown? && s[j].DiceRolled? ==> i < j
  {
    CountdownPlays(env, target);
    AvoidQuiet(env, raw);
    RiskQuiet(env, hope, fear);
    CountdownsBeforeRolls(CountdownEvents(env, target), AvoidBegin(env) + [OverlayRemoved] + AvoidFinish(env, raw));
    CountdownsBeforeRolls(CountdownEvents(env, target),
      [OverlayRemoved] + if env.config.riskItAllDoubleRoll then RiskItAllSequential(env, hope, fear) else RiskItAll(env, hope, fear));
  }

  lemma AvoidQuiet(env: Env, raw: int)
    ensures NoCountdown(AvoidBegin(env) + [OverlayRemoved] + AvoidFinish(env, raw))
  {
    var keys := AvoidResultKeys(env, raw);
    ReportQuiet(env, keys.0, keys.1, AvoidCard(env, raw));
    RollClearQuiet(env, AvoidFormula(HasPhoenix(env.character, env.config.phoenixItemName)), [raw], 3000);
    BeginQuiet(env);
    NoCountdownAppend(AvoidRoll(env, raw), AvoidReport(env, raw));
    NoCountdownAppend(AvoidBegin(env) + [OverlayRemoved], AvoidFinish(env, raw));
  }

  lemma BeginQuiet(env: Env)
    ensures NoCountdown(AvoidBegin(env) + [OverlayRemoved])
  {
  }

  lemma ReportQuiet(env: Env, resultKey: Option<string>, soundKey: Option<string>, card: Html)
    ensures NoCountdown(AvoidMedia(env, resultKey, soundKey) + [ChatPosted(DEATH_MOVES_SPEAKER, card)])
  {
  }

  lemma RollClearQuiet(env: Env, formula: string, faces: seq<int>, ms: nat)
    ensures NoCountdown(RollShown(formula, faces, ms) + BorderClearedEverywhere(env))
  {
  }

  lemma RiskQuiet(env: Env, hope: int, fear: int)
    ensures NoCountdown([OverlayRemoved] + RiskItAllSequential(env, hope, fear))
    ensures NoCountdown([OverlayRemoved] + RiskItAll(env, hope, fear))
  {
    var removed, process := [OverlayRemoved], ProcessRisk(env, hope, fear);
    var rolls, roll := SequentialRolls(env, hope, fear), RollShown("1d12 + 1d12", [hope, fear], 2000);
    var k := RiskKeys(ClassifyRisk(hope, fear));
    ProcessQuiet(env, k.soundKey, k.resultKey, ChatPosted(Localize(env, RISK_SPEAKER_KEY), RiskCard(env, hope, fear)));
    SequentialQuiet(env, hope, fear);
    RollQuiet("1d12 + 1d12", [hope, fear], 2000);
    assert NoCountdown(removed);
    NoCountdownAppend(rolls, process);
    NoCountdownAppend(removed, rolls + process);
    NoCountdownAppend(roll, process);
    NoCountdownAppend(removed, roll + process);
  }

  lemma ProcessQuiet(env: Env, soundKey: string, resultKey: string, chat: Event)
    requires chat.ChatPosted?
    ensures NoCountdown(SoundEverywhere(env, soundKey) + MediaEverywhere(env, resultKey) + [chat])
  {
  }

  lemma SequentialQuiet(env: Env, hope: int, fear: int)
    ensures NoCountdown(SequentialRolls(env, hope, fear))
  {
  }

  lemma RollQuiet(formula: string, faces: seq<int>, ms: nat)
    ensures NoCountdown(RollShown(formula, faces, ms))
  {
  }

  // ---- the listeners of _attachListeners ----

  /** A button can be clicked when it is in a player's overlay, not hidden and
      not closed to pointer events. */
  predicate Clickable(o: Option<Overlay>, id: string)
  {
    o.Some? && !o.value.spectator &&
    exists i :: 0 <= i < |o.value.buttons| && o.value.buttons[i].id == id
      && !o.value.buttons[i].hidden && !o.value.buttons[i].pointerDisabled
  }

  /** Once an option is picked no button can be clicked again and the cancel
      button is gone, so a second choice cannot start. */
  lemma NoSecondChoice(o: Overlay, selectedId: string, other: string)
    ensures !Clickable(HideOthersSpec(Some(o), selectedId), other)
    ensures !HideOthersSpec(Some(o), selectedId).value.cancelPresent
  {
  }

  /** What the callback bound to a button id records. */
  function OptionEvents(env: Env, id: string, raw: int, hope: int, fear: int): seq<Event>
  {
    if id == AVOID_ID then OnAvoidEvents(env, id, raw)
    else if id == BLAZE_ID then OnBlazeEvents(env)
    else if id == RISK_ID then OnRiskEvents(env, id, hope, fear)
    else []
  }

  /** What a click on an option button records. */
  function ClickEvents(env: Env, o: Option<Overlay>, id: string, raw: int, hope: int, fear: int): seq<Event>
  {
    if Clickable(o, id) then [OthersHidden(id)] + OptionEvents(env, id, raw, hope, fear) else []
  }

  /** btn.onclick of setupBtn(id, ...): hideOthers(id), then the callback. The
      dice the callback rolls are parameters. */
  method ClickOption(page: Page, env: Env, id: string, raw: int, hope: int, fear: int)
    requires IsFace(raw) && IsFace(hope) && IsFace(fear)
    modifies page, page.log
    ensures page.log.events == old(page.log.events) + ClickEvents(env, old(page.overlay), id, raw, hope, fear)
    ensures Clickable(old(page.overlay), id) && id in BUTTON_IDS ==> page.overlay.None?
    ensures !Clickable(old(page.overlay), id) ==> page.overlay == old(page.overlay) && page.border == old(page.border)
  {
    if !Clickable(page.overlay, id) {
      assert page.log.events == page.log.events + [];
      return;
    }
    page.HideOthers(id);
    ghost var e1 := page.log.events;
    if id == AVOID_ID {
      OnAvoid(page, env, id, raw);
    } else if id == BLAZE_ID {
      OnBlaze(page, env);
    } else if id == RISK_ID {
      OnRisk(page, env, id, hope, fear);
    } else {
      assert page.log.events == page.log.events + [];
    }
    Assoc(old(page.log.events), [OthersHidden(id)], OptionEvents(env, id, raw, hope, fear));
  }

  /** #risk-cancel-btn's onclick: onCancel, then the overlay removed. */
  method ClickCancel(page: Page)
    modifies page, page.log
    ensures old(page.overlay).Some? && old(page.overlay).value.cancelPresent ==>
      page.log.events == old(page.log.events) + [SoundStopped, OverlayRemoved] && page.overlay.None?
    ensures !(old(page.overlay).Some? && old(page.overlay).value.cancelPresent) ==>
      page.log.events == old(page.log.events) && page.overlay == old(page.overlay)
    ensures page.border == old(page.border)
  {
    if page.overlay.Some? && page.overlay.value.cancelPresent {
      OnCancel(page);
      page.RemoveOverlay();
    }
  }
}
