/** The chat cards of scripts/logic.js. Literal HTML and CSS are reduced to
    named Markup pieces; what is kept is which value is substituted where. */
module ChatCard {
  import opened Values

  datatype Piece =
    | Markup(tag: string)             // literal HTML of the template
    | Text(s: string)                 // a substituted string
    | Number(n: int)                  // a substituted number
    | Formatted(key: string, roll: int) // game.i18n.format(key, {roll})

  type Html = seq<Piece>

  const CARD_HEADER: string := "chat-card/header"
  const CARD_BODY: string := "card-content/background"
  const CARD_TEXT: string := "card-content/text"
  const CARD_END: string := "chat-card/end"

  datatype CardParts = CardParts(title: string, text: Html, imagePath: string)

  /** Reads the substituted values back out of a card. */
  function ParseCard(card: Html): Option<CardParts>
  {
    if |card| >= 6 && card[0] == Markup(CARD_HEADER) && card[1].Text?
       && card[2] == Markup(CARD_BODY) && card[3].Text?
       && card[4] == Markup(CARD_TEXT) && card[|card| - 1] == Markup(CARD_END)
    then Some(CardParts(card[1].s, card[5..|card| - 1], card[3].s))
    else None
  }

  /** _createStyledChatContent(title, text, imagePath): the title in the header,
      then the image as the body's background, then the text over it. */
  function StyledCard(title: string, text: Html, imagePath: string): Html
  {
    [Markup(CARD_HEADER), Text(title), Markup(CARD_BODY), Text(imagePath), Markup(CARD_TEXT)]
    + text + [Markup(CARD_END)]
  }

  /** A card gives back the title, text and image it was made from. */
  lemma StyledCardRoundTrip(title: string, text: Html, imagePath: string)
    ensures ParseCard(StyledCard(title, text, imagePath)) == Some(CardParts(title, text, imagePath))
  {
    var card := StyledCard(title, text, imagePath);
    assert card[5..|card| - 1] == text;
  }

  function NumberOf(p: Piece): seq<int> { if p.Number? then [p.n] else [] }
  function TextOf(p: Piece): seq<string> { if p.Text? then [p.s] else [] }

  /** The numbers a piece of HTML shows, in order. */
  function Numbers(h: Html): seq<int>
  {
    if h == [] then [] else NumberOf(h[0]) + Numbers(h[1..])
  }

  /** The substituted strings a piece of HTML shows, in order. */
  function Texts(h: Html): seq<string>
  {
    if h == [] then [] else TextOf(h[0]) + Texts(h[1..])
  }

  lemma {:induction false} NumbersAppend(a: Html, b: Html)
    ensures Numbers(a + b) == Numbers(a) + Numbers(b)
  {
    if a == [] {
      assert a + b == b;
    } else {
      assert (a + b)[0] == a[0];
      assert (a + b)[1..] == a[1..] + b;
      NumbersAppend(a[1..], b);
    }
  }

  lemma {:induction false} TextsAppend(a: Html, b: Html)
    ensures Texts(a + b) == Texts(a) + Texts(b)
  {
    if a == [] {
      assert a + b == b;
    } else {
      assert (a + b)[0] == a[0];
      assert (a + b)[1..] == a[1..] + b;
      TextsAppend(a[1..], b);
    }
  }

  lemma Triple(p: Piece, q: Piece, r: Piece)
    ensures Numbers([p, q, r]) == NumberOf(p) + NumberOf(q) + NumberOf(r)
    ensures Texts([p, q, r]) == TextOf(p) + TextOf(q) + TextOf(r)
  {
    Single(r);
    assert [q, r][1..] == [r];
    assert Numbers([q, r]) == NumberOf(q) + NumberOf(r);
    assert Texts([q, r]) == TextOf(q) + TextOf(r);
    assert [p, q, r][1..] == [q, r];
  }

  lemma Single(p: Piece)
    ensures Numbers([p]) == NumberOf(p) && Texts([p]) == TextOf(p)
  {
    assert [p][1..] == [];
  }

  /** handleAvoidDeath's details block, line by line. */
  function DetailsOpen(): Html { [Markup("details")] }
  function RawLine(raw: int): Html { [Markup("Roll (d12):"), Number(raw), Markup("/line")] }
  function BonusLine(phoenixName: string): Html { [Text(phoenixName), Markup(": +1"), Markup("/line")] }
  function TotalLine(total: int): Html { [Markup("TOTAL:"), Number(total), Markup("/line")] }
  function ThresholdLine(level: int): Html { [Markup("(Level Threshold: "), Number(level), Markup(")")] }
  function DetailsClose(): Html { [Markup("/details")] }

  function AvoidDetails(raw: int, hasPhoenix: bool, phoenixName: string, total: int, level: int): Html
  {
    DetailsOpen() + RawLine(raw) + (if hasPhoenix then BonusLine(phoenixName) else [])
    + TotalLine(total) + ThresholdLine(level) + DetailsClose()
  }

  /** The details show the raw roll, the total and the level threshold in that
      order, and name the Phoenix item exactly when it is held. */
  lemma AvoidDetailsShow(raw: int, hasPhoenix: bool, phoenixName: string, total: int, level: int)
    ensures Numbers(AvoidDetails(raw, hasPhoenix, phoenixName, total, level)) == [raw, total, level]
    ensures Texts(AvoidDetails(raw, hasPhoenix, phoenixName, total, level))
      == if hasPhoenix then [phoenixName] else []
  {
    DetailsNumbers(raw, hasPhoenix, phoenixName, total, level);
    DetailsTexts(raw, hasPhoenix, phoenixName, total, level);
  }

  lemma DetailsNumbers(raw: int, hasPhoenix: bool, phoenixName: string, total: int, level: int)
    ensures Numbers(AvoidDetails(raw, hasPhoenix, phoenixName, total, level)) == [raw, total, level]
  {
    var bonus: Html := if hasPhoenix then BonusLine(phoenixName) else [];
    var a := DetailsOpen() + RawLine(raw);
    var b := a + bonus;
    var c := b + TotalLine(total);
    var d := c + ThresholdLine(level);
    DetailsLines(raw, phoenixName, total, level);
    NumbersAppend(DetailsOpen(), RawLine(raw));
    NumbersAppend(a, bonus);
    NumbersAppend(b, TotalLine(total));
    NumbersAppend(c, ThresholdLine(level));
    NumbersAppend(d, DetailsClose());
  }

  lemma DetailsTexts(raw: int, hasPhoenix: bool, phoenixName: string, total: int, level: int)
    ensures Texts(AvoidDetails(raw, hasPhoenix, phoenixName, total, level)) == if hasPhoenix then [phoenixName] else []
  {
    var bonus: Html := if hasPhoenix then BonusLine(phoenixName) else [];
    var a := DetailsOpen() + RawLine(raw);
    var b := a + bonus;
    var c := b + TotalLine(total);
    var d := c + ThresholdLine(level);
    DetailsLines(raw, phoenixName, total, level);
    TextsAppend(DetailsOpen(), RawLine(raw));
    TextsAppend(a, bonus);
    TextsAppend(b, TotalLine(total));
    TextsAppend(c, ThresholdLine(level));
    TextsAppend(d, DetailsClose());
  }

  /** What each line of the details shows. */
  lemma DetailsLines(raw: int, phoenixName: string, total: int, level: int)
    ensures Numbers(DetailsOpen()) == [] && Texts(DetailsOpen()) == []
    ensures Numbers(RawLine(raw)) == [raw] && Texts(RawLine(raw)) == []
    ensures Numbers(BonusLine(phoenixName)) == [] && Texts(BonusLine(phoenixName)) == [phoenixName]
    ensures Numbers(TotalLine(total)) == [total] && Texts(TotalLine(total)) == []
    ensures Numbers(ThresholdLine(level)) == [level] && Texts(ThresholdLine(level)) == []
    ensures Numbers(DetailsClose()) == [] && Texts(DetailsClose()) == []
  {
    Single(Markup("details"));
    Single(Markup("/details"));
    Triple(Markup("Roll (d12):"), Number(raw), Markup("/line"));
    Triple(Text(phoenixName), Markup(": +1"), Markup("/line"));
    Triple(Markup("TOTAL:"), Number(total), Markup("/line"));
    Triple(Markup("(Level Threshold: "), Number(level), Markup(")"));
  }

  /** _processRiskResult's dice line: the Hope value, then the Fear value. */
  function DiceText(hope: int, fear: int): (h: Html)
  {
    [Markup("dice"), Markup("Hope: "), Number(hope), Markup("Fear: "), Number(fear), Markup("/dice")]
  }

  lemma DiceTextShows(hope: int, fear: int)
    ensures Numbers(DiceText(hope, fear)) == [hope, fear]
    ensures Texts(DiceText(hope, fear)) == []
  {
    var a: Html, b: Html := [Markup("dice"), Markup("Hope: "), Number(hope)], [Markup("Fear: "), Number(fear), Markup("/dice")];
    assert DiceText(hope, fear) == a + b;
    Triple(a[0], a[1], a[2]);
    Triple(b[0], b[1], b[2]);
    NumbersAppend(a, b);
    TextsAppend(a, b);
  }
}
