/**
 The card data a formatter produces and the fixed Adaptive Card 1.5 message
 that `build_adaptive_card` wraps it in.
 */
module AdaptiveCard {
  import opened Python

  /** The colours of the Adaptive Card palette the notifier uses. */
  datatype Colour = Default | Good | Attention | Warning {
    function Name(): string {
      match this
      case Default => "Default"
      case Good => "Good"
      case Attention => "Attention"
      case Warning => "Warning"
    }
  }

  /** The `data` dict handed to the card builder: an optional colour, a title
      and a body text. */
  datatype CardData = CardData(colour: Option<Colour>, title: string, text: string)

  /** `data.get("colour", "Default")`: the colour's palette name, or
      "Default" when the formatter set none. */
  function ColourName(d: CardData): (r: string)
    ensures d.colour.None? ==> r == "Default"
    ensures r == "Default" <==> d.colour.None? || d.colour == Some(Default)
    ensures r in {"Default", "Good", "Attention", "Warning"}
  {
    match d.colour
    case Some(c) => c.Name()
    case None => "Default"
  }

  const MessageType := "message"
  const ContentType := "application/vnd.microsoft.card.adaptive"
  const Schema := "http://adaptivecards.io/schemas/adaptive-card.json"
  const CardVersion := "1.5"

  /** The first text block: the title, bold and medium, in the card colour. */
  function TitleBlock(title: string, colour: string): Json {
    JObj(map[
      "type" := JStr("TextBlock"),
      "text" := JStr(title),
      "weight" := JStr("Bolder"),
      "size" := JStr("Medium"),
      "color" := JStr(colour)])
  }

  /** The second text block: the body text, wrapped. */
  function TextBlock(text: string): Json {
    JObj(map["type" := JStr("TextBlock"), "text" := JStr(text), "wrap" := JBool(true)])
  }

  /** `obj[key]` when `obj` is a dict holding `key`. */
  function Field(obj: Json, key: string): Option<Json> {
    if obj.JObj? && key in obj.fields then Some(obj.fields[key]) else None
  }

  /** The items of a list-valued field, or none. */
  function ListField(obj: Json, key: string): seq<Json> {
    match Field(obj, key)
    case Some(JArr(xs)) => xs
    case _ => []
  }

  /** The attachments of a message. */
  function Attachments(card: Json): seq<Json> {
    ListField(card, "attachments")
  }

  /** The body blocks of the first attachment's card. */
  function Body(card: Json): seq<Json> {
    var atts := Attachments(card);
    if atts == [] then []
    else match Field(atts[0], "content")
      case Some(content) => ListField(content, "body")
      case None => []
  }

  /** `build_adaptive_card(data)`: a message with one Adaptive Card attachment
      whose body is the title block and the text block. */
  function BuildCard(d: CardData): (card: Json)
    ensures Field(card, "type") == Some(JStr(MessageType))
    ensures |Attachments(card)| == 1
    ensures Field(Attachments(card)[0], "contentType") == Some(JStr(ContentType))
    ensures |Body(card)| == 2
    ensures Field(Body(card)[0], "type") == Some(JStr("TextBlock"))
    ensures Field(Body(card)[0], "text") == Some(JStr(d.title))
    ensures Field(Body(card)[0], "color") == Some(JStr(ColourName(d)))
    ensures Field(Body(card)[1], "type") == Some(JStr("TextBlock"))
    ensures Field(Body(card)[1], "text") == Some(JStr(d.text))
    ensures Field(Body(card)[1], "wrap") == Some(JBool(true))
    // the fixed parts of the template
    ensures Field(Attachments(card)[0], "content").Some?
    ensures var content := Field(Attachments(card)[0], "content").value;
      && Field(content, "type") == Some(JStr("AdaptiveCard"))
      && Field(content, "version") == Some(JStr(CardVersion))
      && Field(content, "$schema") == Some(JStr(Schema))
    ensures Field(Body(card)[0], "weight") == Some(JStr("Bolder"))
    ensures Field(Body(card)[0], "size") == Some(JStr("Medium"))
    // and nothing else
    ensures card.JObj? && card.fields.Keys == {"type", "attachments"}
    ensures Attachments(card)[0].JObj? && Attachments(card)[0].fields.Keys == {"contentType", "content"}
    ensures var content := Field(Attachments(card)[0], "content").value;
      content.JObj? && content.fields.Keys == {"$schema", "type", "version", "body"}
    ensures Body(card)[0].JObj? && Body(card)[0].fields.Keys == {"type", "text", "weight", "size", "color"}
    ensures Body(card)[1].JObj? && Body(card)[1].fields.Keys == {"type", "text", "wrap"}
  {
    var content := JObj(map[
      "$schema" := JStr(Schema),
      "type" := JStr("AdaptiveCard"),
      "version" := JStr(CardVersion),
      "body" := JArr([TitleBlock(d.title, ColourName(d)), TextBlock(d.text)])]);
    var attachment := JObj(map["contentType" := JStr(ContentType), "content" := content]);
    JObj(map["type" := JStr(MessageType), "attachments" := JArr([attachment])])
  }

  /** The card depends on its data only through the title, the colour name
      and the text, and on each of them. */
  lemma CardDeterminedByData(d1: CardData, d2: CardData)
    ensures BuildCard(d1) == BuildCard(d2) <==>
      d1.title == d2.title && ColourName(d1) == ColourName(d2) && d1.text == d2.text
  {
    if BuildCard(d1) == BuildCard(d2) {
      assert Field(Body(BuildCard(d1))[0], "text") == Field(Body(BuildCard(d2))[0], "text");
      assert Field(Body(BuildCard(d1))[0], "color") == Field(Body(BuildCard(d2))[0], "color");
      assert Field(Body(BuildCard(d1))[1], "text") == Field(Body(BuildCard(d2))[1], "text");
    }
  }

  /** A missing colour is shown as "Default", the same as an explicit Default. */
  lemma MissingColourIsDefault(title: string, text: string)
    ensures BuildCard(CardData(None, title, text)) == BuildCard(CardData(Some(Default), title, text))
    ensures Field(Body(BuildCard(CardData(None, title, text)))[0], "color") == Some(JStr("Default"))
  {
    CardDeterminedByData(CardData(None, title, text), CardData(Some(Default), title, text));
  }
}
