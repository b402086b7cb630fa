/** The document as DeathUI (scripts/ui.js) changes it: the option overlay
    with its three buttons and cancel button, and the coloured border. */
module Page {
  import opened Values
  import opened Odds
  import opened World
  import opened Effects

  const AVOID_ID: string := "btn-avoid"
  const BLAZE_ID: string := "btn-blaze"
  const RISK_ID: string := "btn-risk"
  const BUTTON_IDS: seq<string> := [AVOID_ID, BLAZE_ID, RISK_ID]

  /** What a button's .btn-content shows: its face (with the probability line
      when there is one) or a countdown number. */
  datatype Content = Face(probability: Option<string>) | CountdownNumber(n: int)

  /** An .option-btn: `hidden` is the hidden-btn class, `pointerDisabled` is
      style.pointerEvents = 'none'. */
  datatype Button = Button(id: string, hidden: bool, pointerDisabled: bool, content: Content)

  /** #risk-it-all-overlay: `spectator` is the spectator-mode class,
      `cancelPresent` says whether #risk-cancel-btn is still in it. */
  datatype Overlay = Overlay(spectator: bool, background: Option<string>, cancelPresent: bool, buttons: seq<Button>)

  /** #risk-border-overlay: `kind` is the border-<kind> class, `caption` the
      text of its .border-label child. */
  datatype Border = Border(kind: Option<string>, caption: Option<string>)

  /** The three buttons, in document order, each with its own id. */
  predicate WellFormed(o: Overlay)
  {
    |o.buttons| == 3 && forall i :: 0 <= i < 3 ==> o.buttons[i].id == BUTTON_IDS[i]
  }

  /** _createOptionBtn: the probability line is rendered only for a truthy value. */
  function OptionButton(id: string, probability: Option<string>): (b: Button)
    ensures b.id == id && !b.hidden && !b.pointerDisabled && b.content.Face?
    ensures b.content.probability.Some? <==> probability.Some? && probability.value != ""
    ensures b.content.probability.Some? ==> b.content.probability == probability
  {
    Button(id, false, false, Face(if probability.Some? && probability.value != "" then probability else None))
  }

  /** `probs ? probs.avoid : null` and its siblings. */
  function Line(probs: Option<Probs>, id: string): Option<string>
  {
    if probs.None? then None
    else if id == AVOID_ID then Some(probs.value.avoid)
    else if id == BLAZE_ID then Some(probs.value.blaze)
    else Some(probs.value.risk)
  }

  /** The probabilities a new overlay shows: those passed in, otherwise the
      local user's own, but none for a spectator. */
  function ChosenProbs(env: Env, isSpectator: bool, forceProbs: Option<Probs>): (p: Option<Probs>)
    ensures forceProbs.Some? ==> p == forceProbs
    ensures forceProbs.None? && isSpectator ==> p.None?
    ensures forceProbs.None? && !isSpectator ==> p == CalculateProbabilities(env, env.character)
  {
    if forceProbs.Some? then forceProbs
    else if !isSpectator then CalculateProbabilities(env, env.character)
    else None
  }

  function NewOverlay(isSpectator: bool, probs: Option<Probs>, bgPath: string): (o: Overlay)
    ensures WellFormed(o) && o.spectator == isSpectator && o.cancelPresent
    ensures forall i :: 0 <= i < 3 ==> !o.buttons[i].hidden && !o.buttons[i].pointerDisabled
    ensures forall i :: 0 <= i < 3 ==> o.buttons[i] == OptionButton(BUTTON_IDS[i], Line(probs, BUTTON_IDS[i]))
    ensures o.background.Some? <==> bgPath != ""
  {
    Overlay(isSpectator, if bgPath != "" then Some(bgPath) else None, true,
      [OptionButton(AVOID_ID, Line(probs, AVOID_ID)),
       OptionButton(BLAZE_ID, Line(probs, BLAZE_ID)),
       OptionButton(RISK_ID, Line(probs, RISK_ID))])
  }

  /** With probabilities computed, every button shows its line. */
  lemma ComputedProbsShown(env: Env, isSpectator: bool, forceProbs: Option<Probs>, bgPath: string)
    requires forceProbs.None? && !isSpectator && env.config.showProbabilities
    ensures var o := NewOverlay(isSpectator, ChosenProbs(env, isSpectator, forceProbs), bgPath);
      forall i :: 0 <= i < 3 ==> o.buttons[i].content.probability.Some?
  {
    ProbsNonEmpty(env, env.character);
  }

  /** What one .option-btn becomes in hideOthers(selectedId). */
  function HideButton(b: Button, selectedId: string): (r: Button)
    ensures r.id == b.id && r.content == b.content
    ensures b.id != selectedId ==> r.hidden && r.pointerDisabled == b.pointerDisabled
    ensures b.id == selectedId ==> r.pointerDisabled && r.hidden == b.hidden
  {
    if b.id != selectedId then b.(hidden := true) else b.(pointerDisabled := true)
  }

  function HideAll(bs: seq<Button>, selectedId: string): (r: seq<Button>)
    ensures |r| == |bs| && forall i :: 0 <= i < |bs| ==> r[i] == HideButton(bs[i], selectedId)
  {
    seq(|bs|, i requires 0 <= i < |bs| => HideButton(bs[i], selectedId))
  }

  /** hideOthers(selectedId) on the document. */
  function HideOthersSpec(o: Option<Overlay>, selectedId: string): (r: Option<Overlay>)
    ensures o.None? <==> r.None?
  {
    if o.None? then None
    else Some(o.value.(buttons := HideAll(o.value.buttons, selectedId), cancelPresent := false))
  }

  /** After hideOthers every other button is hidden, the selected one takes no
      pointer events and keeps its visibility, and the cancel button is gone. */
  lemma HideOthersEffect(o: Overlay, selectedId: string)
    requires WellFormed(o)
    ensures var r := HideOthersSpec(Some(o), selectedId).value;
      && WellFormed(r) && !r.cancelPresent
      && r.spectator == o.spectator && r.background == o.background
      && (forall i :: 0 <= i < 3 && o.buttons[i].id != selectedId ==> r.buttons[i].hidden)
      && (forall i :: 0 <= i < 3 && o.buttons[i].id == selectedId ==>
            r.buttons[i].pointerDisabled && r.buttons[i].hidden == o.buttons[i].hidden)
      && (forall i :: 0 <= i < 3 ==> r.buttons[i].content == o.buttons[i].content)
  {
  }

  lemma HideOthersIdempotent(o: Option<Overlay>, selectedId: string)
    ensures HideOthersSpec(HideOthersSpec(o, selectedId), selectedId) == HideOthersSpec(o, selectedId)
  {
    if o.Some? {
      var once := HideOthersSpec(o, selectedId).value;
      var twice := HideOthersSpec(Some(once), selectedId).value;
      assert twice.buttons == once.buttons;
    }
  }

  /** Picking an option on a fresh overlay leaves exactly that button showing. */
  lemma ChosenButtonAloneVisible(isSpectator: bool, probs: Option<Probs>, bgPath: string, i: nat)
    requires i < 3
    ensures var r := HideOthersSpec(Some(NewOverlay(isSpectator, probs, bgPath)), BUTTON_IDS[i]).value;
      && (forall k :: 0 <= k < 3 ==> (!r.buttons[k].hidden <==> k == i))
      && r.buttons[i].pointerDisabled && !r.cancelPresent
  {
    var o := NewOverlay(isSpectator, probs, bgPath);
    HideOthersEffect(o, BUTTON_IDS[i]);
  }

  /** removeSpectatorOverlay: only an overlay in spectator mode goes. */
  function RemoveSpectatorSpec(o: Option<Overlay>): (r: Option<Overlay>)
    ensures r.Some? ==> !r.value.spectator
  {
    if o.Some? && o.value.spectator then None else o
  }

  lemma RemoveSpectatorRules(o: Option<Overlay>)
    ensures o.Some? && !o.value.spectator ==> RemoveSpectatorSpec(o) == o
    ensures o.Some? && o.value.spectator ==> RemoveSpectatorSpec(o).None?
    ensures o.None? ==> RemoveSpectatorSpec(o).None?
    ensures RemoveSpectatorSpec(RemoveSpectatorSpec(o)) == RemoveSpectatorSpec(o)
  {
  }

  /** updateCountdown(id, n): the button's content becomes the number; nothing
      happens when there is no such button in the document. */
  function CountdownSpec(o: Option<Overlay>, id: string, n: int): (r: Option<Overlay>)
  {
    if o.None? then o
    else
      var bs := o.value.buttons;
      Some(o.value.(buttons := seq(|bs|, i requires 0 <= i < |bs| =>
        if bs[i].id == id then bs[i].(content := CountdownNumber(n)) else bs[i])))
  }

  lemma CountdownEffect(o: Option<Overlay>, id: string, n: int)
    ensures o.None? ==> CountdownSpec(o, id, n) == o
    ensures (o.Some? && forall i :: 0 <= i < |o.value.buttons| ==> o.value.buttons[i].id != id)
      ==> CountdownSpec(o, id, n) == o
    ensures o.Some? ==> var r := CountdownSpec(o, id, n).value;
      && r.spectator == o.value.spectator && r.cancelPresent == o.value.cancelPresent
      && |r.buttons| == |o.value.buttons|
      && (WellFormed(o.value) ==> WellFormed(r))
      && forall i :: 0 <= i < |r.buttons| ==>
           && r.buttons[i].id == o.value.buttons[i].id
           && r.buttons[i].hidden == o.value.buttons[i].hidden
           && r.buttons[i].pointerDisabled == o.value.buttons[i].pointerDisabled
           && r.buttons[i].content == (if o.value.buttons[i].id == id then CountdownNumber(n)
                                       else o.value.buttons[i].content)
  {
    if o.Some? && forall i :: 0 <= i < |o.value.buttons| ==> o.value.buttons[i].id != id {
      assert CountdownSpec(o, id, n).value.buttons == o.value.buttons;
    }
  }

  /** A later number replaces an earlier one. */
  lemma CountdownLastWins(o: Option<Overlay>, id: string, m: int, n: int)
    ensures CountdownSpec(CountdownSpec(o, id, m), id, n) == CountdownSpec(o, id, n)
  {
    if o.Some? {
      assert CountdownSpec(CountdownSpec(o, id, m), id, n).value.buttons
          == CountdownSpec(o, id, n).value.buttons;
    }
  }

  /** The border showBorderEffect(type) creates. */
  function BorderFor(t: JsValue): Border
  {
    if Truthy(t) then Border(Some(t.s), Some(Upper(t.s))) else Border(None, None)
  }

  /** The page of one client. Every method records the call it models. */
  class Page {
    const log: Log
    var overlay: Option<Overlay>
    var border: Option<Border>

    constructor(log: Log)
      ensures this.log == log && overlay.None? && border.None?
    {
      this.log := log;
      overlay := None;
      border := None;
    }

    /** createOverlay(callbacks, isSpectator, forceProbs): replaces any overlay,
        plays the opening sound, shows the chosen probabilities. */
    method CreateOverlay(env: Env, isSpectator: bool, forceProbs: Option<Probs>)
      modifies this, log
      ensures overlay == Some(NewOverlay(isSpectator, ChosenProbs(env, isSpectator, forceProbs),
                                         AssetPath(env.config, Some("backgroundPath"))))
      ensures border == old(border)
      ensures log.events == old(log.events) + [SoundPlayed(Str("soundRollScreen")), OverlayCreated(isSpectator)]
    {
      overlay := None;
      log.Record(SoundPlayed(Str("soundRollScreen")));
      var bgPath := AssetPath(env.config, Some("backgroundPath"));
      var probs := forceProbs;
      if probs.None? && !isSpectator {
        probs := CalculateProbabilities(env, env.character);
      }
      overlay := Some(NewOverlay(isSpectator, probs, bgPath));
      log.Record(OverlayCreated(isSpectator));
    }

    method RemoveSpectatorOverlay()
      modifies this
      ensures overlay == RemoveSpectatorSpec(old(overlay))
      ensures border == old(border)
    {
      if overlay.Some? && overlay.value.spectator {
        overlay := None;
      }
    }

    /** document.getElementById('risk-it-all-overlay')?.remove() */
    method RemoveOverlay()
      modifies this, log
      ensures overlay.None? && border == old(border)
      ensures log.events == old(log.events) + [OverlayRemoved]
    {
      overlay := None;
      log.Record(OverlayRemoved);
    }

    /** hideOthers(selectedId): a pass over the option buttons, then the cancel
        button is removed. */
    method HideOthers(selectedId: string)
      modifies this, log
      ensures overlay == HideOthersSpec(old(overlay), selectedId)
      ensures border == old(border)
      ensures log.events == old(log.events) + [OthersHidden(selectedId)]
    {
      if overlay.Some? {
        ghost var before := overlay.value.buttons;
        var i := 0;
        while i < |overlay.value.buttons|
          invariant border == old(border) && log.events == old(log.events)
          invariant overlay.Some? && |overlay.value.buttons| == |before|
          invariant overlay.value == old(overlay).value.(buttons := overlay.value.buttons)
          invariant 0 <= i <= |before|
          invariant forall k :: 0 <= k < i ==> overlay.value.buttons[k] == HideButton(before[k], selectedId)
          invariant forall k :: i <= k < |before| ==> overlay.value.buttons[k] == before[k]
        {
          var btn := overlay.value.buttons[i];
          if btn.id != selectedId {
            btn := btn.(hidden := true);
          } else {
            btn := btn.(pointerDisabled := true);
          }
          overlay := Some(overlay.value.(buttons := overlay.value.buttons[i := btn]));
          i := i + 1;
        }
        overlay := Some(overlay.value.(cancelPresent := false));
        assert overlay.value.buttons == HideAll(before, selectedId);
      }
      log.Record(OthersHidden(selectedId));
    }

    /** updateCountdown(buttonElement, n). The scripts pass the clicked button
        element itself; here it is found by its id. The two agree because no
        other overlay can be created while the countdown runs in this model,
        which does not interleave socket messages with the countdown. */
    method UpdateCountdown(id: string, n: int)
      modifies this, log
      ensures overlay == CountdownSpec(old(overlay), id, n)
      ensures border == old(border)
      ensures log.events == old(log.events) + [CountdownShown(id, n)]
    {
      overlay := CountdownSpec(overlay, id, n);
      log.Record(CountdownShown(id, n));
    }

    /** showBorderEffect(type): any previous border is removed first, so there is
        exactly one afterwards. */
    method ShowBorderEffect(t: JsValue)
      modifies this, log
      ensures border == Some(BorderFor(t)) && overlay == old(overlay)
      ensures log.events == old(log.events) + [BorderShown(t)]
    {
      border := None;
      var kind: Option<string> := None;
      var caption: Option<string> := None;
      if Truthy(t) {
        kind := Some(t.s);
        caption := Some(Upper(t.s));
      }
      border := Some(Border(kind, caption));
      log.Record(BorderShown(t));
    }

    method RemoveBorderEffect()
      modifies this, log
      ensures border.None? && overlay == old(overlay)
      ensures log.events == old(log.events) + [BorderRemoved]
    {
      border := None;
      log.Record(BorderRemoved);
    }
  }
}
