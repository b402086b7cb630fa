/** What a client does that the model observes from outside: socket emits,
    sounds and media, dice rolls, waits, chat messages, notifications and the
    calls it makes on the page, recorded in order. */
module Effects {
  import opened Values
  import opened ChatCard

  datatype Event =
    | Emitted(payload: Payload)                 // game.socket.emit(SOCKET_NAME, payload)
    | SoundPlayed(key: JsValue)                 // DeathAudioManager.playSound(key)
    | MediaPlayed(key: JsValue)                 // DeathAudioManager.playMedia(key)
    | SoundStopped                              // DeathAudioManager.stopCurrentSound()
    | DiceRolled(formula: string, faces: seq<int>) // new Roll(formula).evaluate() and its animation
    | Waited(ms: nat)                           // await setTimeout(ms)
    | ChatPosted(speaker: string, content: Html) // ChatMessage.create
    | Warned(text: string)                      // ui.notifications.warn
    | Notified(text: string)                    // ui.notifications.info
    | DialogOpened(candidates: seq<string>)     // DeathUI.createGMDialog(users)
    | OverlayCreated(spectator: bool)           // DeathUI.createOverlay
    | OverlayRemoved                            // the option overlay's .remove()
    | OthersHidden(selected: string)            // DeathUI.hideOthers
    | CountdownShown(target: string, n: int)    // DeathUI.updateCountdown
    | BorderShown(kind: JsValue)                // DeathUI.showBorderEffect
    | BorderRemoved                             // DeathUI.removeBorderEffect

  /** The record of everything observed, oldest first. */
  class Log {
    var events: seq<Event>

    constructor()
      ensures events == []
    {
      events := [];
    }

    method Record(e: Event)
      modifies this
      ensures events == old(events) + [e]
    {
      events := events + [e];
    }
  }

  function ChatCount(s: seq<Event>): nat
  {
    if s == [] then 0 else (if s[0].ChatPosted? then 1 else 0) + ChatCount(s[1..])
  }

  /** The media keys played, in order. */
  function MediaKeys(s: seq<Event>): seq<JsValue>
  {
    if s == [] then [] else (if s[0].MediaPlayed? then [s[0].key] else []) + MediaKeys(s[1..])
  }

  /** The sound keys played, in order. */
  function SoundKeys(s: seq<Event>): seq<JsValue>
  {
    if s == [] then [] else (if s[0].SoundPlayed? then [s[0].key] else []) + SoundKeys(s[1..])
  }

  lemma {:induction false} ChatCountAppend(a: seq<Event>, b: seq<Event>)
    ensures ChatCount(a + b) == ChatCount(a) + ChatCount(b)
  {
    if a == [] {
      assert a + b == b;
    } else {
      assert (a + b)[0] == a[0];
      assert (a + b)[1..] == a[1..] + b;
      ChatCountAppend(a[1..], b);
    }
  }

  /** `a` occurs somewhere before `b`. */
  predicate Precedes(s: seq<Event>, a: Event, b: Event)
  {
    exists i, j :: 0 <= i < j < |s| && s[i] == a && s[j] == b
  }

  lemma {:induction false} MediaKeysAppend(a: seq<Event>, b: seq<Event>)
    ensures MediaKeys(a + b) == MediaKeys(a) + MediaKeys(b)
  {
    if a == [] {
      assert a + b == b;
    } else {
      assert (a + b)[0] == a[0];
      assert (a + b)[1..] == a[1..] + b;
      MediaKeysAppend(a[1..], b);
    }
  }

  lemma {:induction false} SoundKeysAppend(a: seq<Event>, b: seq<Event>)
    ensures SoundKeys(a + b) == SoundKeys(a) + SoundKeys(b)
  {
    if a == [] {
      assert a + b == b;
    } else {
      assert (a + b)[0] == a[0];
      assert (a + b)[1..] == a[1..] + b;
      SoundKeysAppend(a[1..], b);
    }
  }

  /** The time spent waiting, in milliseconds. */
  function TotalWait(s: seq<Event>): nat
  {
    if s == [] then 0 else (if s[0].Waited? then s[0].ms else 0) + TotalWait(s[1..])
  }

  lemma {:induction false} TotalWaitAppend(a: seq<Event>, b: seq<Event>)
    ensures TotalWait(a + b) == TotalWait(a) + TotalWait(b)
  {
    if a == [] {
      assert a + b == b;
    } else {
      assert (a + b)[0] == a[0];
      assert (a + b)[1..] == a[1..] + b;
      TotalWaitAppend(a[1..], b);
    }
  }

  /** No die is rolled. */
  predicate NoRoll(s: seq<Event>)
  {
    forall i :: 0 <= i < |s| ==> !s[i].DiceRolled?
  }

  /** No countdown number is shown. */
  predicate NoCountdown(s: seq<Event>)
  {
    forall i :: 0 <= i < |s| ==> !s[i].CountdownShown?
  }

  lemma NoCountdownAppend(a: seq<Event>, b: seq<Event>)
    requires NoCountdown(a) && NoCountdown(b)
    ensures NoCountdown(a + b)
  {
    assert forall k :: |a| <= k < |a + b| ==> (a + b)[k] == b[k - |a|];
  }

  lemma NoRollAppend(a: seq<Event>, b: seq<Event>)
    requires NoRoll(a) && NoRoll(b)
    ensures NoRoll(a + b)
  {
    assert forall k :: |a| <= k < |a + b| ==> (a + b)[k] == b[k - |a|];
  }

  /** When the first stretch rolls no die and the second shows no countdown
      number, every number shown comes before every die rolled. */
  lemma CountdownsBeforeRolls(a: seq<Event>, b: seq<Event>)
    requires NoRoll(a) && NoCountdown(b)
    ensures var s := a + b;
      forall i, j :: 0 <= i < |s| && 0 <= j < |s| && s[i].CountdownShown? && s[j].DiceRolled? ==> i < j
  {
    var s := a + b;
    assert forall k :: 0 <= k < |a| ==> s[k] == a[k];
    assert forall k :: |a| <= k < |s| ==> s[k] == b[k - |a|];
  }

  /** What two stretches of events play and post, one after the other. */
  lemma PlayedAppend(a: seq<Event>, b: seq<Event>)
    ensures MediaKeys(a + b) == MediaKeys(a) + MediaKeys(b)
    ensures SoundKeys(a + b) == SoundKeys(a) + SoundKeys(b)
    ensures ChatCount(a + b) == ChatCount(a) + ChatCount(b)
  {
    MediaKeysAppend(a, b);
    SoundKeysAppend(a, b);
    ChatCountAppend(a, b);
  }

  /** The keys played by a single event. */
  lemma PlayedByOne(e: Event)
    ensures MediaKeys([e]) == (if e.MediaPlayed? then [e.key] else [])
    ensures SoundKeys([e]) == (if e.SoundPlayed? then [e.key] else [])
    ensures ChatCount([e]) == (if e.ChatPosted? then 1 else 0)
  {
    assert [e][1..] == [];
  }

  /** Two events played one after the other. */
  lemma PlayedByTwo(a: Event, b: Event)
    ensures MediaKeys([a, b]) == MediaKeys([a]) + MediaKeys([b])
    ensures SoundKeys([a, b]) == SoundKeys([a]) + SoundKeys([b])
    ensures ChatCount([a, b]) == ChatCount([a]) + ChatCount([b])
  {
    assert [a, b] == [a] + [b];
    PlayedAppend([a], [b]);
  }

  /** A stretch of events that plays nothing and posts nothing. */
  lemma {:induction false} Silent(s: seq<Event>)
    requires forall i :: 0 <= i < |s| ==> !s[i].MediaPlayed? && !s[i].SoundPlayed? && !s[i].ChatPosted?
    ensures MediaKeys(s) == [] && SoundKeys(s) == [] && ChatCount(s) == 0
  {
    if s != [] {
      Silent(s[1..]);
    }
  }
}
