/** What the other clients see of a handler: the payloads it emits, replayed
    through each receiver's socket listener (main.js, the switch on
    payload.type). A handler is in sync when every receiver plays the same
    media and sounds and ends with the same border as the client that ran it. */
module Sync {
  import opened Values
  import opened Constants
  import opened World
  import opened Outcome
  import opened Effects
  import opened Messages
  import opened Page
  import opened Handlers
  import opened Controller

  /** The payloads emitted, in order. */
  function Broadcast(s: seq<Event>): seq<Payload>
  {
    if s == [] then [] else (if s[0].Emitted? then [s[0].payload] else []) + Broadcast(s[1..])
  }

  lemma {:induction false} BroadcastAppend(a: seq<Event>, b: seq<Event>)
    ensures Broadcast(a + b) == Broadcast(a) + Broadcast(b)
  {
    if a == [] {
      assert a + b == b;
    } else {
      assert (a + b)[0] == a[0];
      assert (a + b)[1..] == a[1..] + b;
      BroadcastAppend(a[1..], b);
    }
  }

  lemma BroadcastOne(e: Event)
    ensures Broadcast([e]) == if e.Emitted? then [e.payload] else []
  {
    assert [e][1..] == [];
  }

  lemma BroadcastPair(a: Event, b: Event)
    ensures Broadcast([a, b]) == Broadcast([a]) + Broadcast([b])
  {
    assert [a, b] == [a] + [b];
    BroadcastAppend([a], [b]);
  }

  /** What a receiver records for a run of payloads. */
  function Replay(r: Env, ps: seq<Payload>): seq<Event>
  {
    if ps == [] then [] else ReceivedEvents(r, ps[0]) + Replay(r, ps[1..])
  }

  /** The border of a receiver after a run of payloads. */
  function ReplayBorder(r: Env, ps: seq<Payload>, b: Option<Border>): Option<Border>
  {
    if ps == [] then b else ReplayBorder(r, ps[1..], ReceivedBorder(r, ps[0], b))
  }

  /** Every message the scripts send reaches the arm of its own type. The first
      four conditions are what showing dice results and borders needs; the last
      one is what removing a border needs. */
  predicate RoutesShown(types: StringTable)
  {
    && Dispatch(types, Lookup(types, "SHOW_UI")) == ShowUIArm
    && Dispatch(types, Lookup(types, "PLAY_MEDIA")) == PlayMediaArm
    && Dispatch(types, Lookup(types, "PLAY_SOUND")) == PlaySoundArm
    && Dispatch(types, Lookup(types, "SHOW_BORDER")) == ShowBorderArm
  }

  predicate Routes(types: StringTable)
  {
    RoutesShown(types) && Dispatch(types, Lookup(types, "REMOVE_BORDER")) == RemoveBorderArm
  }

  /** The table the scripts import routes everything but the border removal;
      the corrected table routes everything. */
  lemma TablesRoute()
    ensures RoutesShown(SOCKET_TYPES) && !Routes(SOCKET_TYPES)
    ensures Routes(SOCKET_TYPES_FIXED)
  {
    BorderTypesUndefined();
    FixedTypesDefined();
    DispatchAsWritten(Undefined);
    DispatchFixed(Str("SHOW_BORDER"));
    DispatchFixed(Str("REMOVE_BORDER"));
  }

  /** How a receiver handles each payload the handlers emit, when the table
      routes the shown types. */
  lemma ReceivedShown(r: Env, key: string, b: Option<Border>)
    requires RoutesShown(r.socketTypes)
    ensures Replay(r, [SoundPayload(r.socketTypes, key)]) == [SoundPlayed(Str(key))]
    ensures ReplayBorder(r, [SoundPayload(r.socketTypes, key)], b) == b
    ensures Replay(r, [MediaPayload(r.socketTypes, key)]) == [MediaPlayed(Str(key))]
    ensures ReplayBorder(r, [MediaPayload(r.socketTypes, key)], b) == b
    ensures Replay(r, [BorderPayload(r.socketTypes, key)]) == [BorderShown(Str(key))]
    ensures ReplayBorder(r, [BorderPayload(r.socketTypes, key)], b) == Some(BorderFor(Str(key)))
  {
    PayloadFields(r.socketTypes, key);
    var ss := [SoundPayload(r.socketTypes, key)];
    var ms := [MediaPayload(r.socketTypes, key)];
    var bs := [BorderPayload(r.socketTypes, key)];
    assert ss[1..] == [] && ms[1..] == [] && bs[1..] == [];
  }

  /** A routed removal clears the border. */
  lemma ReceivedRemoval(r: Env, b: Option<Border>)
    requires Routes(r.socketTypes)
    ensures Replay(r, [RemoveBorderPayload(r.socketTypes)]) == [BorderRemoved]
    ensures ReplayBorder(r, [RemoveBorderPayload(r.socketTypes)], b) == None
  {
    PayloadFields(r.socketTypes, "");
    assert [RemoveBorderPayload(r.socketTypes)][1..] == [];
  }

  /** With the table as written, a removal is received as showBorderEffect of
      undefined: a border overlay without kind or caption. */
  lemma ReceivedRemovalAsWritten(r: Env, b: Option<Border>)
    requires r.socketTypes == SOCKET_TYPES
    ensures Replay(r, [RemoveBorderPayload(r.socketTypes)]) == [BorderShown(Undefined)]
    ensures ReplayBorder(r, [RemoveBorderPayload(r.socketTypes)], b) == Some(Border(None, None))
  {
    PayloadFields(r.socketTypes, "");
    DispatchAsWritten(Undefined);
    BorderTypesUndefined();
    assert [RemoveBorderPayload(r.socketTypes)][1..] == [];
  }

  lemma {:induction false} ReplayAppend(r: Env, a: seq<Payload>, c: seq<Payload>, b: Option<Border>)
    ensures Replay(r, a + c) == Replay(r, a) + Replay(r, c)
    ensures ReplayBorder(r, a + c, b) == ReplayBorder(r, c, ReplayBorder(r, a, b))
  {
    if a == [] {
      assert a + c == c;
    } else {
      assert (a + c)[0] == a[0];
      assert (a + c)[1..] == a[1..] + c;
      ReplayAppend(r, a[1..], c, ReceivedBorder(r, a[0], b));
    }
  }

  // ---- what each handler emits ----

  /** The steps the handlers share announce what they show, and rolls announce nothing. */
  lemma EverywhereBroadcast(env: Env, key: string)
    ensures Broadcast(SoundEverywhere(env, key)) == [SoundPayload(env.socketTypes, key)]
    ensures Broadcast(MediaEverywhere(env, key)) == [MediaPayload(env.socketTypes, key)]
    ensures Broadcast(BorderEverywhere(env, key)) == [BorderPayload(env.socketTypes, key)]
    ensures Broadcast(BorderClearedEverywhere(env)) == [RemoveBorderPayload(env.socketTypes)]
  {
    var t := env.socketTypes;
    BroadcastPair(Emitted(SoundPayload(t, key)), SoundPlayed(Str(key)));
    BroadcastPair(Emitted(MediaPayload(t, key)), MediaPlayed(Str(key)));
    BroadcastPair(BorderShown(Str(key)), Emitted(BorderPayload(t, key)));
    BroadcastPair(BorderRemoved, Emitted(RemoveBorderPayload(t)));
    BroadcastOne(Emitted(SoundPayload(t, key)));
    BroadcastOne(SoundPlayed(Str(key)));
    BroadcastOne(Emitted(MediaPayload(t, key)));
    BroadcastOne(MediaPlayed(Str(key)));
    BroadcastOne(BorderShown(Str(key)));
    BroadcastOne(Emitted(BorderPayload(t, key)));
    BroadcastOne(BorderRemoved);
    BroadcastOne(Emitted(RemoveBorderPayload(t)));
  }

  lemma RollBroadcast(formula: string, faces: seq<int>, ms: nat)
    ensures Broadcast(RollShown(formula, faces, ms)) == []
  {
    BroadcastPair(DiceRolled(formula, faces), Waited(ms));
    BroadcastOne(DiceRolled(formula, faces));
    BroadcastOne(Waited(ms));
  }

  lemma BroadcastFour(a: seq<Event>, b: seq<Event>, c: seq<Event>, d: seq<Event>)
    ensures Broadcast(a + ((b + c) + d)) == Broadcast(a) + Broadcast(b) + Broadcast(c) + Broadcast(d)
  {
    BroadcastAppend(b, c);
    BroadcastAppend(b + c, d);
    BroadcastAppend(a, (b + c) + d);
  }

  /** The result image and sound handleAvoidDeath announces when it has both keys. */
  function AvoidResultPayloads(t: StringTable, resultKey: Option<string>, soundKey: Option<string>): seq<Payload>
  {
    if resultKey.Some? && soundKey.Some? then [MediaPayload(t, resultKey.value), SoundPayload(t, soundKey.value)] else []
  }

  lemma ReportBroadcast(env: Env, resultKey: Option<string>, soundKey: Option<string>, chat: Event)
    requires !chat.Emitted?
    ensures Broadcast(AvoidMedia(env, resultKey, soundKey) + [chat])
      == AvoidResultPayloads(env.socketTypes, resultKey, soundKey)
  {
    var media := AvoidMedia(env, resultKey, soundKey);
    BroadcastOne(chat);
    if resultKey.Some? && soundKey.Some? {
      var t := env.socketTypes;
      var m := Emitted(MediaPayload(t, resultKey.value));
      var n := Emitted(SoundPayload(t, soundKey.value));
      var p := MediaPlayed(Str(resultKey.value));
      var q := SoundPlayed(Str(soundKey.value));
      assert media == [m, n] + [p, q];
      BroadcastPair(m, n);
      BroadcastPair(p, q);
      BroadcastOne(m);
      BroadcastOne(n);
      BroadcastOne(p);
      BroadcastOne(q);
      BroadcastAppend([m, n], [p, q]);
    } else {
      assert media == [];
    }
    BroadcastAppend(media, [chat]);
  }

  /** handleAvoidDeath announces the hope border, its removal, and then the
      result image and sound when there is a character. */
  lemma AvoidBroadcast(env: Env, raw: int)
    ensures var keys := AvoidResultKeys(env, raw);
      var t := env.socketTypes;
      Broadcast(AvoidBegin(env) + AvoidFinish(env, raw))
      == [BorderPayload(t, "hope"), RemoveBorderPayload(t)] + AvoidResultPayloads(t, keys.0, keys.1)
  {
    var keys := AvoidResultKeys(env, raw);
    var formula := AvoidFormula(HasPhoenix(env.character, env.config.phoenixItemName));
    AvoidStepsBroadcast(env, formula, raw, keys.0, keys.1, ChatPosted(DEATH_MOVES_SPEAKER, AvoidCard(env, raw)));
  }

  /** The steps of handleAvoidDeath, for any roll formula, result keys and card. */
  lemma AvoidStepsBroadcast(env: Env, formula: string, raw: int, resultKey: Option<string>, soundKey: Option<string>,
                            chat: Event)
    requires !chat.Emitted?
    ensures var t := env.socketTypes;
      Broadcast(AvoidBegin(env) + ((RollShown(formula, [raw], 3000) + BorderClearedEverywhere(env))
                                   + (AvoidMedia(env, resultKey, soundKey) + [chat])))
      == [BorderPayload(t, "hope"), RemoveBorderPayload(t)] + AvoidResultPayloads(t, resultKey, soundKey)
  {
    EverywhereBroadcast(env, "hope");
    RollBroadcast(formula, [raw], 3000);
    ReportBroadcast(env, resultKey, soundKey, chat);
    BroadcastFour(AvoidBegin(env), RollShown(formula, [raw], 3000), BorderClearedEverywhere(env),
      AvoidMedia(env, resultKey, soundKey) + [chat]);
  }

  /** _processRiskResult announces the result sound, then the result image. */
  lemma ProcessRiskBroadcast(env: Env, hope: int, fear: int)
    ensures var k := RiskKeys(ClassifyRisk(hope, fear));
      Broadcast(ProcessRisk(env, hope, fear))
      == [SoundPayload(env.socketTypes, k.soundKey), MediaPayload(env.socketTypes, k.resultKey)]
  {
    var k := RiskKeys(ClassifyRisk(hope, fear));
    var chat := [ChatPosted(Localize(env, RISK_SPEAKER_KEY), RiskCard(env, hope, fear))];
    EverywhereBroadcast(env, k.soundKey);
    EverywhereBroadcast(env, k.resultKey);
    BroadcastOne(chat[0]);
    BroadcastAppend(SoundEverywhere(env, k.soundKey), MediaEverywhere(env, k.resultKey));
    BroadcastAppend(SoundEverywhere(env, k.soundKey) + MediaEverywhere(env, k.resultKey), chat);
  }

  /** The sequential rolls announce the fear border, the hope border and their removal. */
  lemma SequentialRollsBroadcast(env: Env, hope: int, fear: int)
    ensures var t := env.socketTypes;
      Broadcast(SequentialRolls(env, hope, fear))
      == [BorderPayload(t, "fear"), BorderPayload(t, "hope"), RemoveBorderPayload(t)]
  {
    EverywhereBroadcast(env, "fear");
    EverywhereBroadcast(env, "hope");
    var a := BorderEverywhere(env, "fear");
    var r1 := RollShown("1d12", [fear], 5000);
    var r2 := RollShown("1d12", [hope], 4000);
    RollBroadcast("1d12", [fear], 5000);
    RollBroadcast("1d12", [hope], 4000);
    BroadcastAppend(a, r1);
    BroadcastAppend(a + r1, BorderEverywhere(env, "hope"));
    BroadcastAppend(a + r1 + BorderEverywhere(env, "hope"), r2);
    BroadcastAppend(a + r1 + BorderEverywhere(env, "hope") + r2, BorderClearedEverywhere(env));
  }

  /** Both Risk It All modes announce the same result; the sequential one
      first announces the fear border, the hope border and their removal. */
  lemma RiskBroadcast(env: Env, hope: int, fear: int)
    ensures var k := RiskKeys(ClassifyRisk(hope, fear));
      var t := env.socketTypes;
      && Broadcast(RiskItAll(env, hope, fear)) == [SoundPayload(t, k.soundKey), MediaPayload(t, k.resultKey)]
      && Broadcast(RiskItAllSequential(env, hope, fear))
         == [BorderPayload(t, "fear"), BorderPayload(t, "hope"), RemoveBorderPayload(t),
             SoundPayload(t, k.soundKey), MediaPayload(t, k.resultKey)]
  {
    ProcessRiskBroadcast(env, hope, fear);
    SequentialRollsBroadcast(env, hope, fear);
    RollBroadcast("1d12 + 1d12", [hope, fear], 2000);
    BroadcastAppend(RollShown("1d12 + 1d12", [hope, fear], 2000), ProcessRisk(env, hope, fear));
    BroadcastAppend(SequentialRolls(env, hope, fear), ProcessRisk(env, hope, fear));
  }

  /** handleBlazeOfGlory announces its sound, then its image. */
  lemma BlazeBroadcast(env: Env, removesOverlay: bool)
    ensures Broadcast(BlazeOfGlory(env, removesOverlay))
      == [SoundPayload(env.socketTypes, "soundBlaze"), MediaPayload(env.socketTypes, "blazePath")]
  {
    BlazeStepsBroadcast(env, "soundBlaze", "blazePath", ChatPosted(DEATH_MOVES_SPEAKER, BlazeCard(env)), removesOverlay);
  }

  /** The steps of handleBlazeOfGlory, for any keys and card. */
  lemma BlazeStepsBroadcast(env: Env, sound: string, media: string, chat: Event, removesOverlay: bool)
    requires !chat.Emitted?
    ensures Broadcast(SoundEverywhere(env, sound) + [chat] + (if removesOverlay then [OverlayRemoved] else [])
                      + MediaEverywhere(env, media))
      == [SoundPayload(env.socketTypes, sound), MediaPayload(env.socketTypes, media)]
  {
    var removal: seq<Event> := if removesOverlay then [OverlayRemoved] else [];
    EverywhereBroadcast(env, sound);
    EverywhereBroadcast(env, media);
    BroadcastOne(chat);
    BroadcastOne(OverlayRemoved);
    assert Broadcast(removal) == [];
    BroadcastAppend(SoundEverywhere(env, sound), [chat]);
    BroadcastAppend(SoundEverywhere(env, sound) + [chat], removal);
    BroadcastAppend(SoundEverywhere(env, sound) + [chat] + removal, MediaEverywhere(env, media));
  }

  // ---- the receivers ----

  /** The sound and image payloads every handler ends with replay as the same
      sound and image, and leave the border alone. */
  lemma SoundThenMediaReplay(r: Env, sound: string, media: string, b: Option<Border>)
    requires RoutesShown(r.socketTypes)
    ensures var ps := [SoundPayload(r.socketTypes, sound), MediaPayload(r.socketTypes, media)];
      && SoundKeys(Replay(r, ps)) == [Str(sound)] && MediaKeys(Replay(r, ps)) == [Str(media)]
      && ReplayBorder(r, ps, b) == b
  {
    ReceivedShown(r, sound, b);
    ReceivedShown(r, media, b);
    ReplayAppend(r, [SoundPayload(r.socketTypes, sound)], [MediaPayload(r.socketTypes, media)], b);
    PlayedByTwo(SoundPlayed(Str(sound)), MediaPlayed(Str(media)));
  }

  /** A border shown and then removed: with a routing table the receiver ends
      without a border, as written it ends with a blank one. Nothing is played. */
  lemma BorderThenRemovalReplay(r: Env, kind: string, b: Option<Border>)
    requires Routes(r.socketTypes) || r.socketTypes == SOCKET_TYPES
    ensures var t := r.socketTypes;
      var ps := [BorderPayload(t, kind), RemoveBorderPayload(t)];
      && MediaKeys(Replay(r, ps)) == [] && SoundKeys(Replay(r, ps)) == []
      && (Routes(t) ==> ReplayBorder(r, ps, b) == None)
      && (t == SOCKET_TYPES ==> ReplayBorder(r, ps, b) == Some(Border(None, None)))
  {
    var t := r.socketTypes;
    var shown := Some(BorderFor(Str(kind)));
    assert [BorderPayload(t, kind), RemoveBorderPayload(t)] == [BorderPayload(t, kind)] + [RemoveBorderPayload(t)];
    ReplayAppend(r, [BorderPayload(t, kind)], [RemoveBorderPayload(t)], b);
    if Routes(t) {
      ReceivedShown(r, kind, b);
      ReceivedRemoval(r, shown);
      PlayedByTwo(BorderShown(Str(kind)), BorderRemoved);
    } else {
      TablesRoute();
      ReceivedShown(r, kind, b);
      ReceivedRemovalAsWritten(r, shown);
      PlayedByTwo(BorderShown(Str(kind)), BorderShown(Undefined));
    }
  }

  /** The payloads of handleAvoidDeath, replayed. */
  lemma AvoidPayloadsReplay(r: Env, resultKey: Option<string>, soundKey: Option<string>, b: Option<Border>)
    requires Routes(r.socketTypes) || r.socketTypes == SOCKET_TYPES
    ensures var t := r.socketTypes;
      var ps := [BorderPayload(t, "hope"), RemoveBorderPayload(t)] + AvoidResultPayloads(t, resultKey, soundKey);
      var both := resultKey.Some? && soundKey.Some?;
      && MediaKeys(Replay(r, ps)) == (if both then [Str(resultKey.value)] else [])
      && SoundKeys(Replay(r, ps)) == (if both then [Str(soundKey.value)] else [])
      && (Routes(t) ==> ReplayBorder(r, ps, b) == None)
      && (t == SOCKET_TYPES ==> ReplayBorder(r, ps, b) == Some(Border(None, None)))
  {
    var t := r.socketTypes;
    TablesRoute();
    var head := [BorderPayload(t, "hope"), RemoveBorderPayload(t)];
    var tail := AvoidResultPayloads(t, resultKey, soundKey);
    BorderThenRemovalReplay(r, "hope", b);
    var after := ReplayBorder(r, head, b);
    if resultKey.Some? && soundKey.Some? {
      MediaThenSoundReplay(r, resultKey.value, soundKey.value, after);
    } else {
      assert Replay(r, tail) == [];
    }
    ReplayAppend(r, head, tail, b);
    PlayedAppend(Replay(r, head), Replay(r, tail));
  }

  /** The result image and sound of handleAvoidDeath replay as the same image
      and sound, and leave the border alone. */
  lemma MediaThenSoundReplay(r: Env, media: string, sound: string, b: Option<Border>)
    requires RoutesShown(r.socketTypes)
    ensures var ps := [MediaPayload(r.socketTypes, media), SoundPayload(r.socketTypes, sound)];
      && MediaKeys(Replay(r, ps)) == [Str(media)] && SoundKeys(Replay(r, ps)) == [Str(sound)]
      && ReplayBorder(r, ps, b) == b
  {
    ReceivedShown(r, media, b);
    ReceivedShown(r, sound, b);
    ReplayAppend(r, [MediaPayload(r.socketTypes, media)], [SoundPayload(r.socketTypes, sound)], b);
    PlayedByTwo(MediaPlayed(Str(media)), SoundPlayed(Str(sound)));
  }

  /** With a table that routes every type, on both sides, a receiver of
      handleAvoidDeath plays the same image and sound as its sender and ends
      without a border, as the sender does. */
  lemma AvoidInSync(env: Env, r: Env, raw: int, b: Option<Border>)
    requires r.socketTypes == env.socketTypes && Routes(r.socketTypes)
    ensures var s := AvoidBegin(env) + AvoidFinish(env, raw);
      && MediaKeys(Replay(r, Broadcast(s))) == MediaKeys(s)
      && SoundKeys(Replay(r, Broadcast(s))) == SoundKeys(s)
      && ReplayBorder(r, Broadcast(s), b) == None
  {
    var keys := AvoidResultKeys(env, raw);
    AvoidBroadcast(env, raw);
    AvoidPlays(env, raw);
    AvoidResultKeysMeaning(env, raw);
    AvoidPayloadsReplay(r, keys.0, keys.1, b);
  }

  /** As written: the removal reaches the SHOW_BORDER arm, so a receiver of
      handleAvoidDeath still plays the right image and sound but is left with
      a blank border overlay while the sender has none. */
  lemma AvoidOutOfSyncAsWritten(env: Env, r: Env, raw: int, b: Option<Border>)
    requires r.socketTypes == SOCKET_TYPES && env.socketTypes == SOCKET_TYPES
    ensures var s := AvoidBegin(env) + AvoidFinish(env, raw);
      && MediaKeys(Replay(r, Broadcast(s))) == MediaKeys(s)
      && SoundKeys(Replay(r, Broadcast(s))) == SoundKeys(s)
      && ReplayBorder(r, Broadcast(s), b) == Some(Border(None, None))
  {
    var keys := AvoidResultKeys(env, raw);
    AvoidBroadcast(env, raw);
    AvoidPlays(env, raw);
    AvoidResultKeysMeaning(env, raw);
    AvoidPayloadsReplay(r, keys.0, keys.1, b);
  }

  /** The three border payloads of the sequential mode: with a routing table
      the receiver ends without a border, as written it ends with a blank one. */
  lemma SequentialBordersReplay(r: Env, b: Option<Border>)
    requires Routes(r.socketTypes) || r.socketTypes == SOCKET_TYPES
    ensures var t := r.socketTypes;
      var ps := [BorderPayload(t, "fear"), BorderPayload(t, "hope"), RemoveBorderPayload(t)];
      && MediaKeys(Replay(r, ps)) == [] && SoundKeys(Replay(r, ps)) == []
      && (Routes(t) ==> ReplayBorder(r, ps, b) == None)
      && (t == SOCKET_TYPES ==> ReplayBorder(r, ps, b) == Some(Border(None, None)))
  {
    var t := r.socketTypes;
    var rest := [BorderPayload(t, "hope"), RemoveBorderPayload(t)];
    if !Routes(t) {
      TablesRoute();
    }
    ReceivedShown(r, "fear", b);
    BorderThenRemovalReplay(r, "hope", Some(BorderFor(Str("fear"))));
    assert [BorderPayload(t, "fear"), BorderPayload(t, "hope"), RemoveBorderPayload(t)] == [BorderPayload(t, "fear")] + rest;
    ReplayAppend(r, [BorderPayload(t, "fear")], rest, b);
    PlayedByOne(BorderShown(Str("fear")));
    PlayedAppend([BorderShown(Str("fear"))], Replay(r, rest));
  }

  /** With a routing table on both sides, a receiver of either Risk It All mode
      plays the same result sound and image as the sender; after the sequential
      mode it ends without a border, after the simultaneous one its border is
      untouched, as the sender's is. */
  lemma RiskInSync(env: Env, r: Env, hope: int, fear: int, sequential: bool, b: Option<Border>)
    requires r.socketTypes == env.socketTypes && (Routes(r.socketTypes) || r.socketTypes == SOCKET_TYPES)
    ensures var s := if sequential then RiskItAllSequential(env, hope, fear) else RiskItAll(env, hope, fear);
      && MediaKeys(Replay(r, Broadcast(s))) == MediaKeys(s)
      && SoundKeys(Replay(r, Broadcast(s))) == SoundKeys(s)
      && (!sequential ==> ReplayBorder(r, Broadcast(s), b) == b)
      && (sequential && Routes(r.socketTypes) ==> ReplayBorder(r, Broadcast(s), b) == None)
      && (sequential && r.socketTypes == SOCKET_TYPES ==> ReplayBorder(r, Broadcast(s), b) == Some(Border(None, None)))
  {
    var k := RiskKeys(ClassifyRisk(hope, fear));
    RiskBroadcast(env, hope, fear);
    RiskPlays(env, hope, fear, sequential);
    if sequential {
      BordersThenResultReplay(r, k.soundKey, k.resultKey, b);
    } else {
      if !Routes(r.socketTypes) {
        TablesRoute();
      }
      SoundThenMediaReplay(r, k.soundKey, k.resultKey, b);
    }
  }

  /** The sequential risk's five announcements: the two borders and their
      removal, then the result sound and image. */
  lemma BordersThenResultReplay(r: Env, sound: string, media: string, b: Option<Border>)
    requires Routes(r.socketTypes) || r.socketTypes == SOCKET_TYPES
    ensures var t := r.socketTypes;
      var ps := [BorderPayload(t, "fear"), BorderPayload(t, "hope"), RemoveBorderPayload(t),
                 SoundPayload(t, sound), MediaPayload(t, media)];
      && MediaKeys(Replay(r, ps)) == [Str(media)] && SoundKeys(Replay(r, ps)) == [Str(sound)]
      && (Routes(t) ==> ReplayBorder(r, ps, b) == None)
      && (t == SOCKET_TYPES ==> ReplayBorder(r, ps, b) == Some(Border(None, None)))
  {
    var t := r.socketTypes;
    if !Routes(t) {
      TablesRoute();
    }
    var head := [BorderPayload(t, "fear"), BorderPayload(t, "hope"), RemoveBorderPayload(t)];
    var tail := [SoundPayload(t, sound), MediaPayload(t, media)];
    assert head + tail == [BorderPayload(t, "fear"), BorderPayload(t, "hope"), RemoveBorderPayload(t),
                           SoundPayload(t, sound), MediaPayload(t, media)];
    SequentialBordersReplay(r, b);
    SoundThenMediaReplay(r, sound, media, ReplayBorder(r, head, b));
    ReplayAppend(r, head, tail, b);
    PlayedAppend(Replay(r, head), Replay(r, tail));
  }

  /** A receiver of handleBlazeOfGlory plays the same sound and image as the
      sender and keeps its border. */
  lemma BlazeInSync(env: Env, r: Env, removesOverlay: bool, b: Option<Border>)
    requires r.socketTypes == env.socketTypes && RoutesShown(r.socketTypes)
    ensures var s := BlazeOfGlory(env, removesOverlay);
      && MediaKeys(Replay(r, Broadcast(s))) == MediaKeys(s)
      && SoundKeys(Replay(r, Broadcast(s))) == SoundKeys(s)
      && ReplayBorder(r, Broadcast(s), b) == b
  {
    BlazeBroadcast(env, removesOverlay);
    BlazePlays(env, removesOverlay);
    SoundThenMediaReplay(r, "soundBlaze", "blazePath", b);
  }
}
