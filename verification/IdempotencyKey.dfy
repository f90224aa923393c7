/**
 * Idempotency keys. A digest of canonical JSON is as good as the fields that go into it, so
 * it is modelled by those fields: equal digests mean equal fields.
 */
module IdempotencyKey {
  import opened Prelude

  type WebhookId = string

  datatype Embed = Embed(title: Option<string>, description: Option<string>, footer: Option<string>, timestamp: Option<string>)

  /** The kinds of request bodies. `rest` is everything in an eterminal envelope besides its three keyed fields. */
  datatype Body =
    | Eterminal(kind: string, signalId: string, firedAt: string, rest: string)
    | FuturesOrderJson(json: string)
    | Discord(embeds: seq<Embed>)
    | Plain(title: string, subtitle: string, body: string, delivered: Option<real>,
            appId: string, deliveredIso: string, platform: string)

  /** The part of a normalized text message that is hashed. */
  datatype Message = Message(title: string, subtitle: string, body: string, delivered: Option<real>)

  datatype Digest =
    | EterminalDigest(user: UserId, kind: string, signalId: string, firedAt: string)
    | FuturesDigest(user: UserId, webhook: Option<WebhookId>, json: string)
    | TextDigest(user: UserId, message: Message)

  datatype Key = Key(prefix: Option<WebhookId>, digest: Digest)

  /** None when the body does not validate: a Discord message whose first embed lacks a title or text. */
  function MessageOf(body: Body): Option<Message>
    requires body.Discord? || body.Plain?
  {
    match body
    case Plain(title, subtitle, text, delivered, _, _, _) => Some(Message(title, subtitle, text, delivered))
    case Discord(embeds) =>
      if embeds == [] then Some(Message("", "", "", None))
      else if embeds[0].title.None? || embeds[0].description.None? then None
      else Some(Message(embeds[0].title.value, "", embeds[0].description.value, None))
  }

  function ResolveKey(user: UserId, body: Body, via: Option<WebhookId>): Option<Key> {
    match body
    case Eterminal(kind, signalId, firedAt, _) => Some(Key(None, EterminalDigest(user, kind, signalId, firedAt)))
    case FuturesOrderJson(json) => Some(Key(via, FuturesDigest(user, via, json)))
    case _ =>
      var message := MessageOf(body);
      if message.None? then None else Some(Key(via, TextDigest(user, message.value)))
  }

  /**
   * Two Discord messages arriving the same way count as one exactly when their first embeds
   * agree in title and description: footers, timestamps and further embeds say nothing.
   */
  lemma OnlyTheFirstEmbedCounts(user: UserId, a: seq<Embed>, b: seq<Embed>, via: Option<WebhookId>)
    requires a != [] && b != []
    requires ResolveKey(user, Discord(a), via).Some? && ResolveKey(user, Discord(b), via).Some?
    ensures ResolveKey(user, Discord(a), via) == ResolveKey(user, Discord(b), via)
       <==> a[0].title == b[0].title && a[0].description == b[0].description
  {
  }

  const BUY: Embed := Embed(Some("ALERT"), Some("BUY 1"), None, Some("09:30"))

  /** Two messages of which the later one carries another order, and one key for both. */
  lemma TwoMessagesOneKey(user: UserId, via: Option<WebhookId>)
    ensures var first, second := Discord([BUY]), Discord([BUY.(timestamp := Some("15:59")), BUY.(description := Some("SELL 1"))]);
            first != second && ResolveKey(user, first, via).Some? && ResolveKey(user, first, via) == ResolveKey(user, second, via)
  {
    assert [BUY] != [BUY.(timestamp := Some("15:59")), BUY.(description := Some("SELL 1"))];
  }

  /** What two bodies must share to count as one: by kind, everything that is hashed. */
  ghost predicate SameContent(a: Body, b: Body) {
    || (a.Eterminal? && b.Eterminal? && a.kind == b.kind && a.signalId == b.signalId && a.firedAt == b.firedAt)
    || (a.FuturesOrderJson? && b.FuturesOrderJson? && a.json == b.json)
    || (a.Plain? && b.Plain? && a.title == b.title && a.subtitle == b.subtitle && a.body == b.body && a.delivered == b.delivered)
    || (a.Discord? && b.Discord? && SameHead(a.embeds, b.embeds))
    || (a.Plain? && b.Discord? && ReadsAs(a, b.embeds)) || (a.Discord? && b.Plain? && ReadsAs(b, a.embeds))
  }

  /** Title and text of the first embed, both blank without one. */
  function Head(embeds: seq<Embed>): (Option<string>, Option<string>) {
    if embeds == [] then (Some(""), Some("")) else (embeds[0].title, embeds[0].description)
  }

  ghost predicate SameHead(a: seq<Embed>, b: seq<Embed>) {
    Head(a) == Head(b)
  }

  /** A plain message without subtitle and date that says what a Discord message says first. */
  ghost predicate ReadsAs(plain: Body, embeds: seq<Embed>)
    requires plain.Plain?
  {
    plain.subtitle == "" && plain.delivered == None && Head(embeds) == (Some(plain.title), Some(plain.body))
  }

  /**
   * Two requests have one key if and only if they are one user's, their hashed contents agree,
   * and they arrived the same way, which alone envelopes leave open. So an order is never
   * taken for another order, nor an envelope or an order for a message; a plain and a Discord
   * message can stand for each other.
   */
  lemma KeysAgreeIff(user: UserId, a: Body, via: Option<WebhookId>, user': UserId, b: Body, via': Option<WebhookId>)
    requires ResolveKey(user, a, via).Some? && ResolveKey(user', b, via').Some?
    ensures ResolveKey(user, a, via) == ResolveKey(user', b, via')
       <==> user == user' && SameContent(a, b) && (a.Eterminal? || via == via')
  {
  }

  /** Only a Discord message whose first embed lacks its title or its text has no key. */
  lemma NoKeyIff(user: UserId, body: Body, via: Option<WebhookId>)
    ensures ResolveKey(user, body, via) == None <==>
              body.Discord? && body.embeds != [] && (body.embeds[0].title == None || body.embeds[0].description == None)
  {
  }
}
