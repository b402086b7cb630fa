/** The handlers of scripts/logic.js (DeathLogic): the step sequences of
    Avoid Death, Risk It All (simultaneous and sequential) and Blaze of Glory,
    and the chat card each one posts. Dice faces are parameters. */
module Handlers {
  import opened Values
  import opened Outcome
  import opened World
  import opened Odds
  import opened ChatCard
  import opened Effects
  import opened Messages
  import opened Page

  const DEATH_MOVES_SPEAKER: string := "Death Moves"
  const RISK_SPEAKER_KEY: string := "DEATH_OPTIONS.Chat.Risk.Speaker"

  // ---- Avoid Death ----

  function AvoidFormula(hasPhoenix: bool): (f: string)
  {
    if hasPhoenix then "1d12 + 1" else "1d12"
  }

  /** The result of Avoid Death: none without a character, otherwise Scar or Safe. */
  function AvoidResolution(env: Env, raw: int): (r: Option<AvoidResult>)
    ensures r.None? <==> env.character.None?
    ensures r.Some? ==>
      (r.value == Scar <==> raw <= LevelOf(env.character.value) - Bonus(HasPhoenix(env.character, env.config.phoenixItemName)))
  {
    if env.character.None? then None
    else
      var has := HasPhoenix(env.character, env.config.phoenixItemName);
      ScarOnRaw(raw, has, LevelOf(env.character.value));
      Some(ClassifyAvoid(AvoidTotal(raw, has), LevelOf(env.character.value)))
  }

  function AvoidTitleKey(r: AvoidResult): string {
    if r == Scar then "DEATH_OPTIONS.Chat.Avoid.ResultScar" else "DEATH_OPTIONS.Chat.Avoid.ResultSafe"
  }

  function AvoidMessageKey(r: AvoidResult): string {
    if r == Scar then "DEATH_OPTIONS.Chat.Avoid.MsgScar" else "DEATH_OPTIONS.Chat.Avoid.MsgSafe"
  }

  /** The card handleAvoidDeath posts. */
  function AvoidCard(env: Env, raw: int): Html
  {
    var has := HasPhoenix(env.character, env.config.phoenixItemName);
    var total := AvoidTotal(raw, has);
    match AvoidResolution(env, raw)
    case Some(r) =>
      StyledCard(Localize(env, AvoidTitleKey(r)),
        [Text(Localize(env, AvoidMessageKey(r)))]
        + AvoidDetails(raw, has, env.config.phoenixItemName, total, LevelOf(env.character.value)),
        AssetPath(env.config, Some(AvoidKeys(r).resultKey)))
    case None =>
      StyledCard(Localize(env, "DEATH_OPTIONS.Chat.Avoid.Flavor"),
        [Formatted("DEATH_OPTIONS.Chat.Avoid.NoActor", total)],
        AssetPath(env.config, None))
  }

  // ---- steps the handlers share ----

  /** A border shown locally and announced to the other clients. */
  function BorderEverywhere(env: Env, kind: string): seq<Event>
  {
    [BorderShown(Str(kind)), Emitted(BorderPayload(env.socketTypes, kind))]
  }

  /** The border removed locally and the removal announced. */
  function BorderClearedEverywhere(env: Env): seq<Event>
  {
    [BorderRemoved, Emitted(RemoveBorderPayload(env.socketTypes))]
  }

  /** A roll evaluated and shown, then the pause that lets the dice be seen. */
  function RollShown(formula: string, faces: seq<int>, ms: nat): seq<Event>
  {
    [DiceRolled(formula, faces), Waited(ms)]
  }

  method ShowBorderEverywhere(page: Page, env: Env, kind: string)
    modifies page, page.log
    ensures page.log.events == old(page.log.events) + BorderEverywhere(env, kind)
    ensures page.border == Some(BorderFor(Str(kind))) && page.overlay == old(page.overlay)
  {
    page.ShowBorderEffect(Str(kind));
    page.log.Record(Emitted(BorderPayload(env.socketTypes, kind)));
  }

  method ClearBorderEverywhere(page: Page, env: Env)
    modifies page, page.log
    ensures page.log.events == old(page.log.events) + BorderClearedEverywhere(env)
    ensures page.border.None? && page.overlay == old(page.overlay)
  {
    page.RemoveBorderEffect();
    page.log.Record(Emitted(RemoveBorderPayload(env.socketTypes)));
  }

  method RollAndWait(log: Log, formula: string, faces: seq<int>, ms: nat)
    modifies log
    ensures log.events == old(log.events) + RollShown(formula, faces, ms)
  {
    log.Record(DiceRolled(formula, faces));
    log.Record(Waited(ms));
  }

  lemma Assoc(a: seq<Event>, b: seq<Event>, c: seq<Event>)
    ensures a + b + c == a + (b + c)
  {
  }

  // ---- Avoid Death ----

  /** What handleAvoidDeath does before its first await. */
  function AvoidBegin(env: Env): seq<Event>
  {
    BorderEverywhere(env, "hope")
  }

  /** The setting keys of the result image and sound: none without a character. */
  function AvoidResultKeys(env: Env, raw: int): (Option<string>, Option<string>)
  {
    match AvoidResolution(env, raw)
    case None => (None, None)
    case Some(o) => (Some(AvoidKeys(o).resultKey), Some(AvoidKeys(o).soundKey))
  }

  /** There are result keys exactly when there is a character, and they are
      the keys of its Scar or Safe result. */
  lemma AvoidResultKeysMeaning(env: Env, raw: int)
    ensures var keys := AvoidResultKeys(env, raw);
      && (keys.0.Some? <==> env.character.Some?) && (keys.1.Some? <==> env.character.Some?)
      && (env.character.Some? ==>
            var k := AvoidKeys(AvoidResolution(env, raw).value);
            keys.0.value == k.resultKey && keys.1.value == k.soundKey)
  {
  }

  /** The result media and sound, emitted and then played, when both keys are set. */
  function AvoidMedia(env: Env, resultKey: Option<string>, soundKey: Option<string>): seq<Event>
  {
    if resultKey.Some? && soundKey.Some? then
      [Emitted(MediaPayload(env.socketTypes, resultKey.value)),
       Emitted(SoundPayload(env.socketTypes, soundKey.value)),
       MediaPlayed(Str(resultKey.value)),
       SoundPlayed(Str(soundKey.value))]
    else []
  }

  method PlayAvoidResult(log: Log, env: Env, resultKey: Option<string>, soundKey: Option<string>)
    modifies log
    ensures log.events == old(log.events) + AvoidMedia(env, resultKey, soundKey)
  {
    if resultKey.Some? && soundKey.Some? {
      log.Record(Emitted(MediaPayload(env.socketTypes, resultKey.value)));
      log.Record(Emitted(SoundPayload(env.socketTypes, soundKey.value)));
      log.Record(MediaPlayed(Str(resultKey.value)));
      log.Record(SoundPlayed(Str(soundKey.value)));
    } else {
      assert log.events == log.events + [];
    }
  }

  /** The d12 (plus one with the Phoenix item) rolled, then the border cleared. */
  function AvoidRoll(env: Env, raw: int): seq<Event>
  {
    RollShown(AvoidFormula(HasPhoenix(env.character, env.config.phoenixItemName)), [raw], 3000)
    + BorderClearedEverywhere(env)
  }

  /** The result played everywhere, when there is one, then the card. */
  function AvoidReport(env: Env, raw: int): seq<Event>
  {
    AvoidMedia(env, AvoidResultKeys(env, raw).0, AvoidResultKeys(env, raw).1)
    + [ChatPosted(DEATH_MOVES_SPEAKER, AvoidCard(env, raw))]
  }

  /** What handleAvoidDeath does from its first await on. */
  function AvoidFinish(env: Env, raw: int): seq<Event>
  {
    AvoidRoll(env, raw) + AvoidReport(env, raw)
  }

  method AvoidDeathBegin(page: Page, env: Env)
    modifies page, page.log
    ensures page.log.events == old(page.log.events) + AvoidBegin(env)
    ensures page.border == Some(BorderFor(Str("hope"))) && page.overlay == old(page.overlay)
  {
    ShowBorderEverywhere(page, env, "hope");
  }

  /** The part of handleAvoidDeath that decides the result: the asset keys it
      plays (none without a character) and the title and text of its card. */
  method DecideAvoid(env: Env, raw: int) returns (resultKey: Option<string>, soundKey: Option<string>,
                                                  mainTitle: string, mainText: Html)
    ensures (resultKey, soundKey) == AvoidResultKeys(env, raw)
    ensures StyledCard(mainTitle, mainText, AssetPath(env.config, resultKey)) == AvoidCard(env, raw)
  {
    var actor := env.character;
    var phoenixName := env.config.phoenixItemName;
    var hasPhoenix := HasPhoenix(actor, phoenixName);
    var rollTotal := raw + (if hasPhoenix then 1 else 0);
    var rawRoll := raw;
    resultKey, soundKey := None, None;
    if actor.Some? {
      var level := LevelOrZero(actor.value.level);
      if rollTotal <= level {
        mainTitle := Localize(env, "DEATH_OPTIONS.Chat.Avoid.ResultScar");
        mainText := [Text(Localize(env, "DEATH_OPTIONS.Chat.Avoid.MsgScar"))];
        resultKey := Some("avoidScarPath");
        soundKey := Some("soundAvoidScar");
      } else {
        mainTitle := Localize(env, "DEATH_OPTIONS.Chat.Avoid.ResultSafe");
        mainText := [Text(Localize(env, "DEATH_OPTIONS.Chat.Avoid.MsgSafe"))];
        resultKey := Some("avoidSafePath");
        soundKey := Some("soundAvoidSafe");
      }
      var detailsHtml := DetailsOpen();
      detailsHtml := detailsHtml + RawLine(rawRoll);
      if hasPhoenix {
        detailsHtml := detailsHtml + BonusLine(phoenixName);
      } else {
        assert detailsHtml == detailsHtml + [];
      }
      detailsHtml := detailsHtml + TotalLine(rollTotal);
      detailsHtml := detailsHtml + ThresholdLine(level);
      detailsHtml := detailsHtml + DetailsClose();
      assert detailsHtml == AvoidDetails(rawRoll, hasPhoenix, phoenixName, rollTotal, level);
      mainText := mainText + detailsHtml;
    } else {
      mainTitle := Localize(env, "DEATH_OPTIONS.Chat.Avoid.Flavor");
      mainText := [Formatted("DEATH_OPTIONS.Chat.Avoid.NoActor", rollTotal)];
    }
  }

  method AvoidDeathFinish(page: Page, env: Env, raw: int)
    requires IsFace(raw)
    modifies page, page.log
    ensures page.log.events == old(page.log.events) + AvoidFinish(env, raw)
    ensures page.border.None? && page.overlay == old(page.overlay)
  {
    var hasPhoenix := HasPhoenix(env.character, env.config.phoenixItemName);
    var formula := if hasPhoenix then "1d12 + 1" else "1d12";
    RollAndWait(page.log, formula, [raw], 3000);
    ClearBorderEverywhere(page, env);
    ghost var e1 := page.log.events;
    assert e1 == old(page.log.events) + AvoidRoll(env, raw);

    var resultKey, soundKey, mainTitle, mainText := DecideAvoid(env, raw);
    PlayAvoidResult(page.log, env, resultKey, soundKey);

    var bgImage := AssetPath(env.config, resultKey);
    page.log.Record(ChatPosted(DEATH_MOVES_SPEAKER, StyledCard(mainTitle, mainText, bgImage)));
    Assoc(old(page.log.events), AvoidRoll(env, raw), AvoidReport(env, raw));
  }

  /** handleAvoidDeath run to completion. */
  method HandleAvoidDeath(page: Page, env: Env, raw: int)
    requires IsFace(raw)
    modifies page, page.log
    ensures page.log.events == old(page.log.events) + AvoidBegin(env) + AvoidFinish(env, raw)
    ensures page.border.None? && page.overlay == old(page.overlay)
  {
    AvoidDeathBegin(page, env);
    AvoidDeathFinish(page, env, raw);
  }

  // ---- Risk It All ----

  function RiskTitleKey(r: RiskResult): string {
    match r
    case Hope => "DEATH_OPTIONS.Chat.Risk.HopeTitle"
    case Fear => "DEATH_OPTIONS.Chat.Risk.FearTitle"
    case Critical => "DEATH_OPTIONS.Chat.Risk.CriticalTitle"
  }

  function RiskDescKey(r: RiskResult): string {
    match r
    case Hope => "DEATH_OPTIONS.Chat.Risk.HopeDesc"
    case Fear => "DEATH_OPTIONS.Chat.Risk.FearDesc"
    case Critical => "DEATH_OPTIONS.Chat.Risk.CriticalDesc"
  }

  function RiskCard(env: Env, hope: int, fear: int): Html
  {
    var r := ClassifyRisk(hope, fear);
    StyledCard(Localize(env, RiskTitleKey(r)),
      DiceText(hope, fear) + [Text(Localize(env, RiskDescKey(r)))],
      AssetPath(env.config, Some(RiskKeys(r).resultKey)))
  }

  /** A sound announced to the other clients, then played locally. */
  function SoundEverywhere(env: Env, key: string): seq<Event>
  {
    [Emitted(SoundPayload(env.socketTypes, key)), SoundPlayed(Str(key))]
  }

  /** A media key announced to the other clients, then played locally. */
  function MediaEverywhere(env: Env, key: string): seq<Event>
  {
    [Emitted(MediaPayload(env.socketTypes, key)), MediaPlayed(Str(key))]
  }

  method PlaySoundEverywhere(log: Log, env: Env, key: string)
    modifies log
    ensures log.events == old(log.events) + SoundEverywhere(env, key)
  {
    log.Record(Emitted(SoundPayload(env.socketTypes, key)));
    log.Record(SoundPlayed(Str(key)));
  }

  method PlayMediaEverywhere(log: Log, env: Env, key: string)
    modifies log
    ensures log.events == old(log.events) + MediaEverywhere(env, key)
  {
    log.Record(Emitted(MediaPayload(env.socketTypes, key)));
    log.Record(MediaPlayed(Str(key)));
  }

  /** _processRiskResult(hope, fear). */
  function ProcessRisk(env: Env, hope: int, fear: int): seq<Event>
  {
    var k := RiskKeys(ClassifyRisk(hope, fear));
    SoundEverywhere(env, k.soundKey) + MediaEverywhere(env, k.resultKey)
    + [ChatPosted(Localize(env, RISK_SPEAKER_KEY), RiskCard(env, hope, fear))]
  }

  /** handleRiskItAll: both dice in one roll. */
  function RiskItAll(env: Env, hope: int, fear: int): seq<Event>
  {
    RollShown("1d12 + 1d12", [hope, fear], 2000) + ProcessRisk(env, hope, fear)
  }

  /** The steps of handleRiskItAllSequential before it resolves. */
  function SequentialRolls(env: Env, hope: int, fear: int): seq<Event>
  {
    BorderEverywhere(env, "fear") + RollShown("1d12", [fear], 5000)
    + BorderEverywhere(env, "hope") + RollShown("1d12", [hope], 4000)
    + BorderClearedEverywhere(env)
  }

  /** handleRiskItAllSequential: the Fear die first, then the Hope die. */
  function RiskItAllSequential(env: Env, hope: int, fear: int): seq<Event>
  {
    SequentialRolls(env, hope, fear) + ProcessRisk(env, hope, fear)
  }

  method ProcessRiskResult(page: Page, env: Env, hopeVal: int, fearVal: int)
    modifies page.log
    ensures page.log.events == old(page.log.events) + ProcessRisk(env, hopeVal, fearVal)
  {
    var resultKey, soundKey, titleKey, descKey;
    if hopeVal > fearVal {
      resultKey, soundKey := "hopePath", "soundHope";
      titleKey, descKey := "DEATH_OPTIONS.Chat.Risk.HopeTitle", "DEATH_OPTIONS.Chat.Risk.HopeDesc";
    } else if fearVal > hopeVal {
      resultKey, soundKey := "fearPath", "soundFear";
      titleKey, descKey := "DEATH_OPTIONS.Chat.Risk.FearTitle", "DEATH_OPTIONS.Chat.Risk.FearDesc";
    } else {
      resultKey, soundKey := "criticalPath", "soundCritical";
      titleKey, descKey := "DEATH_OPTIONS.Chat.Risk.CriticalTitle", "DEATH_OPTIONS.Chat.Risk.CriticalDesc";
    }
    var mainTitle := Localize(env, titleKey);
    var fullText := DiceText(hopeVal, fearVal) + [Text(Localize(env, descKey))];
    var bgImage := AssetPath(env.config, Some(resultKey));
    assert RiskKeys(ClassifyRisk(hopeVal, fearVal)) == AssetKeys(resultKey, soundKey);
    assert StyledCard(mainTitle, fullText, bgImage) == RiskCard(env, hopeVal, fearVal);
    if soundKey != "" {
      PlaySoundEverywhere(page.log, env, soundKey);
    }
    PlayMediaEverywhere(page.log, env, resultKey);
    page.log.Record(ChatPosted(Localize(env, RISK_SPEAKER_KEY), StyledCard(mainTitle, fullText, bgImage)));
  }

  method HandleRiskItAll(page: Page, env: Env, hope: int, fear: int)
    requires IsFace(hope) && IsFace(fear)
    modifies page.log
    ensures page.log.events == old(page.log.events) + RiskItAll(env, hope, fear)
  {
    RollAndWait(page.log, "1d12 + 1d12", [hope, fear], 2000);
    ProcessRiskResult(page, env, hope, fear);
  }

  method HandleRiskItAllSequential(page: Page, env: Env, hope: int, fear: int)
    requires IsFace(hope) && IsFace(fear)
    modifies page, page.log
    ensures page.log.events == old(page.log.events) + RiskItAllSequential(env, hope, fear)
    ensures page.border.None? && page.overlay == old(page.overlay)
  {
    ShowBorderEverywhere(page, env, "fear");
    RollAndWait(page.log, "1d12", [fear], 5000);
    ShowBorderEverywhere(page, env, "hope");
    RollAndWait(page.log, "1d12", [hope], 4000);
    ClearBorderEverywhere(page, env);
    ghost var e1 := page.log.events;
    assert e1 == old(page.log.events) + SequentialRolls(env, hope, fear);
    ProcessRiskResult(page, env, hope, fear);
    Assoc(old(page.log.events), SequentialRolls(env, hope, fear), ProcessRisk(env, hope, fear));
  }

  // ---- Blaze of Glory ----

  function BlazeCard(env: Env): Html
  {
    StyledCard(Localize(env, "DEATH_OPTIONS.Chat.Blaze.Title"), [Text(env.config.blazeChatMessage)],
      AssetPath(env.config, Some("blazePath")))
  }

  /** handleBlazeOfGlory(overlayRemoveCallback); `removesOverlay` says whether a
      callback was passed. */
  function BlazeOfGlory(env: Env, removesOverlay: bool): seq<Event>
  {
    SoundEverywhere(env, "soundBlaze") + [ChatPosted(DEATH_MOVES_SPEAKER, BlazeCard(env))]
    + (if removesOverlay then [OverlayRemoved] else [])
    + MediaEverywhere(env, "blazePath")
  }

  method HandleBlazeOfGlory(page: Page, env: Env, removesOverlay: bool)
    modifies page, page.log
    ensures page.log.events == old(page.log.events) + BlazeOfGlory(env, removesOverlay)
    ensures page.overlay == (if removesOverlay then None else old(page.overlay))
    ensures page.border == old(page.border)
  {
    PlaySoundEverywhere(page.log, env, "soundBlaze");
    var blazeMsg := env.config.blazeChatMessage;
    var title := Localize(env, "DEATH_OPTIONS.Chat.Blaze.Title");
    var blazeKey := "blazePath";
    var bgImage := AssetPath(env.config, Some(blazeKey));
    page.log.Record(ChatPosted(DEATH_MOVES_SPEAKER, StyledCard(title, [Text(blazeMsg)], bgImage)));
    if removesOverlay {
      page.RemoveOverlay();
    } else {
      assert page.log.events == page.log.events + [];
    }
    PlayMediaEverywhere(page.log, env, blazeKey);
  }

  // ---- properties of the handlers ----

  /** The border, roll and wait steps play nothing and post nothing. */
  lemma StepsSilent(env: Env, kind: string, formula: string, faces: seq<int>, ms: nat)
    ensures MediaKeys(BorderEverywhere(env, kind)) == [] && SoundKeys(BorderEverywhere(env, kind)) == []
    ensures ChatCount(BorderEverywhere(env, kind)) == 0
    ensures MediaKeys(BorderClearedEverywhere(env)) == [] && SoundKeys(BorderClearedEverywhere(env)) == []
    ensures ChatCount(BorderClearedEverywhere(env)) == 0
    ensures MediaKeys(RollShown(formula, faces, ms)) == [] && SoundKeys(RollShown(formula, faces, ms)) == []
    ensures ChatCount(RollShown(formula, faces, ms)) == 0
  {
    Silent(BorderEverywhere(env, kind));
    Silent(BorderClearedEverywhere(env));
    Silent(RollShown(formula, faces, ms));
  }

  /** Playing a sound or a media key everywhere plays it once locally. */
  lemma EverywherePlaysOnce(env: Env, key: string)
    ensures MediaKeys(SoundEverywhere(env, key)) == [] && SoundKeys(SoundEverywhere(env, key)) == [Str(key)]
    ensures ChatCount(SoundEverywhere(env, key)) == 0
    ensures MediaKeys(MediaEverywhere(env, key)) == [Str(key)] && SoundKeys(MediaEverywhere(env, key)) == []
    ensures ChatCount(MediaEverywhere(env, key)) == 0
  {
    var emitS := Emitted(SoundPayload(env.socketTypes, key));
    var emitM := Emitted(MediaPayload(env.socketTypes, key));
    PlayedByTwo(emitS, SoundPlayed(Str(key)));
    PlayedByTwo(emitM, MediaPlayed(Str(key)));
    PlayedByOne(emitS);
    PlayedByOne(emitM);
    PlayedByOne(SoundPlayed(Str(key)));
    PlayedByOne(MediaPlayed(Str(key)));
  }

  /** _processRiskResult plays the sound and the media of the classification,
      once each, and posts one card. */
  lemma ProcessRiskPlays(env: Env, hope: int, fear: int)
    ensures var k := RiskKeys(ClassifyRisk(hope, fear));
      && MediaKeys(ProcessRisk(env, hope, fear)) == [Str(k.resultKey)]
      && SoundKeys(ProcessRisk(env, hope, fear)) == [Str(k.soundKey)]
      && ChatCount(ProcessRisk(env, hope, fear)) == 1
  {
    var k := RiskKeys(ClassifyRisk(hope, fear));
    var chat := ChatPosted(Localize(env, RISK_SPEAKER_KEY), RiskCard(env, hope, fear));
    EverywherePlaysOnce(env, k.soundKey);
    EverywherePlaysOnce(env, k.resultKey);
    PlayedByOne(chat);
    PlayedAppend(SoundEverywhere(env, k.soundKey), MediaEverywhere(env, k.resultKey));
    PlayedAppend(SoundEverywhere(env, k.soundKey) + MediaEverywhere(env, k.resultKey), [chat]);
  }

  /** Either Risk It All mode plays exactly the classification's sound and
      media, once each, and posts exactly one card. */
  lemma RiskPlays(env: Env, hope: int, fear: int, sequential: bool)
    ensures var s := if sequential then RiskItAllSequential(env, hope, fear) else RiskItAll(env, hope, fear);
      var k := RiskKeys(ClassifyRisk(hope, fear));
      && MediaKeys(s) == [Str(k.resultKey)]
      && SoundKeys(s) == [Str(k.soundKey)]
      && ChatCount(s) == 1
  {
    ProcessRiskPlays(env, hope, fear);
    if sequential {
      StepsSilent(env, "fear", "1d12", [fear], 5000);
      StepsSilent(env, "hope", "1d12", [hope], 4000);
      var a := BorderEverywhere(env, "fear") + RollShown("1d12", [fear], 5000);
      var b := a + BorderEverywhere(env, "hope");
      var c := b + RollShown("1d12", [hope], 4000);
      PlayedAppend(BorderEverywhere(env, "fear"), RollShown("1d12", [fear], 5000));
      PlayedAppend(a, BorderEverywhere(env, "hope"));
      PlayedAppend(b, RollShown("1d12", [hope], 4000));
      PlayedAppend(c, BorderClearedEverywhere(env));
      PlayedAppend(SequentialRolls(env, hope, fear), ProcessRisk(env, hope, fear));
    } else {
      StepsSilent(env, "", "1d12 + 1d12", [hope, fear], 2000);
      PlayedAppend(RollShown("1d12 + 1d12", [hope, fear], 2000), ProcessRisk(env, hope, fear));
    }
  }

  /** Risk It All plays the Hope assets when the Hope die is higher, the Fear
      assets when the Fear die is higher and the Critical assets on a tie, in
      either mode. */
  lemma RiskResultFollowsDice(env: Env, hope: int, fear: int, sequential: bool)
    ensures var s := if sequential then RiskItAllSequential(env, hope, fear) else RiskItAll(env, hope, fear);
      && (hope > fear ==> MediaKeys(s) == [Str("hopePath")] && SoundKeys(s) == [Str("soundHope")])
      && (fear > hope ==> MediaKeys(s) == [Str("fearPath")] && SoundKeys(s) == [Str("soundFear")])
      && (hope == fear ==> MediaKeys(s) == [Str("criticalPath")] && SoundKeys(s) == [Str("soundCritical")])
  {
    RiskPlays(env, hope, fear, sequential);
  }

  /** The result step of Avoid Death plays what its keys name, once each. */
  lemma AvoidMediaPlays(env: Env, resultKey: Option<string>, soundKey: Option<string>)
    ensures var m := AvoidMedia(env, resultKey, soundKey);
      && MediaKeys(m) == (if resultKey.Some? && soundKey.Some? then [Str(resultKey.value)] else [])
      && SoundKeys(m) == (if resultKey.Some? && soundKey.Some? then [Str(soundKey.value)] else [])
      && ChatCount(m) == 0
  {
    if resultKey.Some? && soundKey.Some? {
      var rk, sk := resultKey.value, soundKey.value;
      var e1, e2 := Emitted(MediaPayload(env.socketTypes, rk)), Emitted(SoundPayload(env.socketTypes, sk));
      var e3, e4 := MediaPlayed(Str(rk)), SoundPlayed(Str(sk));
      assert AvoidMedia(env, resultKey, soundKey) == [e1, e2] + [e3, e4];
      PlayedByTwo(e1, e2);
      PlayedByTwo(e3, e4);
      PlayedByOne(e1);
      PlayedByOne(e2);
      PlayedByOne(e3);
      PlayedByOne(e4);
      PlayedAppend([e1, e2], [e3, e4]);
    } else {
      Silent(AvoidMedia(env, resultKey, soundKey));
    }
  }

  /** Avoid Death plays the result's media and sound once each when there is a
      character and none without one, and posts exactly one card. */
  lemma AvoidPlays(env: Env, raw: int)
    ensures var s := AvoidBegin(env) + AvoidFinish(env, raw);
      var keys := AvoidResultKeys(env, raw);
      && MediaKeys(s) == (if keys.0.Some? then [Str(keys.0.value)] else [])
      && SoundKeys(s) == (if keys.1.Some? then [Str(keys.1.value)] else [])
      && ChatCount(s) == 1
  {
    var keys := AvoidResultKeys(env, raw);
    assert keys.0.Some? <==> keys.1.Some?;
    var chat := ChatPosted(DEATH_MOVES_SPEAKER, AvoidCard(env, raw));
    var formula := AvoidFormula(HasPhoenix(env.character, env.config.phoenixItemName));
    StepsSilent(env, "hope", formula, [raw], 3000);
    PlayedAppend(RollShown(formula, [raw], 3000), BorderClearedEverywhere(env));
    PlayedByOne(chat);
    AvoidMediaPlays(env, keys.0, keys.1);
    PlayedAppend(AvoidMedia(env, keys.0, keys.1), [chat]);
    PlayedAppend(AvoidRoll(env, raw), AvoidReport(env, raw));
    PlayedAppend(AvoidBegin(env), AvoidFinish(env, raw));
  }

  /** Without a character Avoid Death plays no result media or sound, and its
      card reports the bare d12 with the no-character text. */
  lemma AvoidWithoutCharacter(env: Env, raw: int)
    requires env.character.None?
    ensures MediaKeys(AvoidBegin(env) + AvoidFinish(env, raw)) == []
    ensures SoundKeys(AvoidBegin(env) + AvoidFinish(env, raw)) == []
    ensures AvoidFinish(env, raw)[|AvoidFinish(env, raw)| - 1]
      == ChatPosted(DEATH_MOVES_SPEAKER,
           StyledCard(Localize(env, "DEATH_OPTIONS.Chat.Avoid.Flavor"),
             [Formatted("DEATH_OPTIONS.Chat.Avoid.NoActor", raw)], ""))
  {
    AvoidPlays(env, raw);
    AvoidResultKeysMeaning(env, raw);
  }

  /** With a character, Avoid Death plays the Scar assets exactly when the d12
      is at most the level less the Phoenix bonus, and the Safe assets otherwise. */
  lemma AvoidResultFollowsRule(env: Env, raw: int)
    requires env.character.Some?
    ensures var threshold := LevelOf(env.character.value) - Bonus(HasPhoenix(env.character, env.config.phoenixItemName));
      var s := AvoidBegin(env) + AvoidFinish(env, raw);
      && (raw <= threshold ==> MediaKeys(s) == [Str("avoidScarPath")] && SoundKeys(s) == [Str("soundAvoidScar")])
      && (raw > threshold ==> MediaKeys(s) == [Str("avoidSafePath")] && SoundKeys(s) == [Str("soundAvoidSafe")])
  {
    AvoidPlays(env, raw);
    AvoidResultKeysMeaning(env, raw);
  }

  /** With a character, the Avoid Death card shows the raw d12, the total and
      the level threshold, in that order, and names the Phoenix item exactly
      when the character holds it. */
  lemma AvoidCardShowsRoll(env: Env, raw: int)
    requires env.character.Some?
    ensures var has := HasPhoenix(env.character, env.config.phoenixItemName);
      var parts := ParseCard(AvoidCard(env, raw));
      && parts.Some?
      && Numbers(parts.value.text) == [raw, AvoidTotal(raw, has), LevelOf(env.character.value)]
      && (env.config.phoenixItemName in Texts(parts.value.text) <== has)
  {
    var has := HasPhoenix(env.character, env.config.phoenixItemName);
    var r := AvoidResolution(env, raw).value;
    var lead := [Text(Localize(env, AvoidMessageKey(r)))];
    var details := AvoidDetails(raw, has, env.config.phoenixItemName, AvoidTotal(raw, has), LevelOf(env.character.value));
    StyledCardRoundTrip(Localize(env, AvoidTitleKey(r)), lead + details,
      AssetPath(env.config, Some(AvoidKeys(r).resultKey)));
    AvoidDetailsShow(raw, has, env.config.phoenixItemName, AvoidTotal(raw, has), LevelOf(env.character.value));
    NumbersAppend(lead, details);
    TextsAppend(lead, details);
    assert Numbers(lead) == [] by { assert lead[1..] == []; }
  }

  /** The two Risk It All modes resolve the same way: the sequential mode is its
      border-and-roll steps followed by exactly what follows the simultaneous roll. */
  lemma RiskModesShareResolution(env: Env, hope: int, fear: int)
    ensures |SequentialRolls(env, hope, fear)| == 10 && |RollShown("1d12 + 1d12", [hope, fear], 2000)| == 2
    ensures RiskItAllSequential(env, hope, fear)[10..] == RiskItAll(env, hope, fear)[2..]
  {
    assert RiskItAllSequential(env, hope, fear)[10..] == ProcessRisk(env, hope, fear);
    assert RiskItAll(env, hope, fear)[2..] == ProcessRisk(env, hope, fear);
  }

  /** The sequential mode shows the Fear border and rolls the Fear die before it
      shows the Hope border and rolls the Hope die, and clears the border before
      it resolves. */
  lemma SequentialOrder(env: Env, hope: int, fear: int)
    ensures var s := RiskItAllSequential(env, hope, fear);
      && Precedes(s, BorderShown(Str("fear")), DiceRolled("1d12", [fear]))
      && Precedes(s, DiceRolled("1d12", [fear]), BorderShown(Str("hope")))
      && Precedes(s, BorderShown(Str("hope")), DiceRolled("1d12", [hope]))
      && Precedes(s, DiceRolled("1d12", [hope]), BorderRemoved)
  {
    var s := RiskItAllSequential(env, hope, fear);
    var r := SequentialRolls(env, hope, fear);
    assert r == [BorderShown(Str("fear")), Emitted(BorderPayload(env.socketTypes, "fear")),
                 DiceRolled("1d12", [fear]), Waited(5000),
                 BorderShown(Str("hope")), Emitted(BorderPayload(env.socketTypes, "hope")),
                 DiceRolled("1d12", [hope]), Waited(4000),
                 BorderRemoved, Emitted(RemoveBorderPayload(env.socketTypes))];
    assert s[..10] == r;
    assert s[0] == r[0] && s[2] == r[2] && s[4] == r[4] && s[6] == r[6] && s[8] == r[8];
  }

  /** Blaze of Glory plays its sound before it posts the card, removes the
      overlay (when asked) after the card and before the media, and rolls no
      dice and waits for nothing. */
  lemma BlazeOrder(env: Env, removesOverlay: bool)
    ensures var s := BlazeOfGlory(env, removesOverlay);
      && Precedes(s, SoundPlayed(Str("soundBlaze")), ChatPosted(DEATH_MOVES_SPEAKER, BlazeCard(env)))
      && Precedes(s, ChatPosted(DEATH_MOVES_SPEAKER, BlazeCard(env)), MediaPlayed(Str("blazePath")))
      && (removesOverlay ==>
            Precedes(s, ChatPosted(DEATH_MOVES_SPEAKER, BlazeCard(env)), OverlayRemoved)
            && Precedes(s, OverlayRemoved, MediaPlayed(Str("blazePath"))))
      && (OverlayRemoved in s <==> removesOverlay)
      && forall i :: 0 <= i < |s| ==> !s[i].DiceRolled? && !s[i].Waited?
  {
    BlazeSteps(env, removesOverlay);
    BlazeShape(BlazeOfGlory(env, removesOverlay), Emitted(SoundPayload(env.socketTypes, "soundBlaze")),
      SoundPlayed(Str("soundBlaze")), ChatPosted(DEATH_MOVES_SPEAKER, BlazeCard(env)),
      Emitted(MediaPayload(env.socketTypes, "blazePath")), MediaPlayed(Str("blazePath")), removesOverlay);
  }

  /** The order facts of BlazeOrder, for any five events of the right kinds. */
  lemma BlazeShape(s: seq<Event>, e0: Event, e1: Event, c: Event, e3: Event, e4: Event, removes: bool)
    requires e0.Emitted? && e1.SoundPlayed? && c.ChatPosted? && e3.Emitted? && e4.MediaPlayed?
    requires s == if removes then [e0, e1, c, OverlayRemoved, e3, e4] else [e0, e1, c, e3, e4]
    ensures Precedes(s, e1, c) && Precedes(s, c, e4)
    ensures removes ==> Precedes(s, c, OverlayRemoved) && Precedes(s, OverlayRemoved, e4)
    ensures OverlayRemoved in s <==> removes
    ensures forall i :: 0 <= i < |s| ==> !s[i].DiceRolled? && !s[i].Waited?
  {
    if removes {
      assert s[1] == e1 && s[2] == c && s[3] == OverlayRemoved && s[5] == e4;
    } else {
      assert s[1] == e1 && s[2] == c && s[4] == e4;
    }
  }

  lemma BlazeSteps(env: Env, removesOverlay: bool)
    ensures var e0, e1 := Emitted(SoundPayload(env.socketTypes, "soundBlaze")), SoundPlayed(Str("soundBlaze"));
      var c := ChatPosted(DEATH_MOVES_SPEAKER, BlazeCard(env));
      var e3, e4 := Emitted(MediaPayload(env.socketTypes, "blazePath")), MediaPlayed(Str("blazePath"));
      BlazeOfGlory(env, removesOverlay)
        == if removesOverlay then [e0, e1, c, OverlayRemoved, e3, e4] else [e0, e1, c, e3, e4]
  {
    if !removesOverlay {
      var a := SoundEverywhere(env, "soundBlaze") + [ChatPosted(DEATH_MOVES_SPEAKER, BlazeCard(env))];
      assert a + [] == a;
    }
  }

  /** Blaze of Glory plays its sound and its media once each and posts one card. */
  lemma BlazePlays(env: Env, removesOverlay: bool)
    ensures MediaKeys(BlazeOfGlory(env, removesOverlay)) == [Str("blazePath")]
    ensures SoundKeys(BlazeOfGlory(env, removesOverlay)) == [Str("soundBlaze")]
    ensures ChatCount(BlazeOfGlory(env, removesOverlay)) == 1
  {
    var chat := [ChatPosted(DEATH_MOVES_SPEAKER, BlazeCard(env))];
    var removal: seq<Event> := if removesOverlay then [OverlayRemoved] else [];
    EverywherePlaysOnce(env, "soundBlaze");
    EverywherePlaysOnce(env, "blazePath");
    PlayedByOne(chat[0]);
    Silent(removal);
    PlayedAppend(SoundEverywhere(env, "soundBlaze"), chat);
    PlayedAppend(SoundEverywhere(env, "soundBlaze") + chat, removal);
    PlayedAppend(SoundEverywhere(env, "soundBlaze") + chat + removal, MediaEverywhere(env, "blazePath"));
  }
}
