/** The broker-neutral message, its validity rules, and its wire form
    (src/BusTester.Domain/BusMessage.cs, src/BusTester.Infrastructure). */
module Domain {
  import opened Basics

  type Handle = nat
  type Chan = nat
  type Conn = nat

  /** White space to both String.prototype.trim and char.IsWhiteSpace. */
  predicate SharedSpace(c: char) {
    || '\U{0009}' <= c <= '\U{000D}' || c == ' ' || c == '\U{00A0}' || c == '\U{1680}'
    || '\U{2000}' <= c <= '\U{200A}' || c == '\U{2028}' || c == '\U{2029}' || c == '\U{202F}'
    || c == '\U{205F}' || c == '\U{3000}'
  }

  const NEXT_LINE: char := '\U{0085}'
  const ZERO_WIDTH_NO_BREAK: char := '\U{FEFF}'

  /** What the browser trims, and what .NET calls white space: each knows one character more. */
  predicate JsSpace(c: char) { SharedSpace(c) || c == ZERO_WIDTH_NO_BREAK }

  predicate NetSpace(c: char) { SharedSpace(c) || c == NEXT_LINE }

  /** `value.trim() === ''`. */
  predicate JsBlank(s: string) { forall i :: 0 <= i < |s| ==> JsSpace(s[i]) }

  /** `string.IsNullOrWhiteSpace` of a string that is not null. */
  predicate NetBlank(s: string) { forall i :: 0 <= i < |s| ==> NetSpace(s[i]) }

  /** Blank for .NET but not for the browser: white space with a next-line character in it. */
  predicate NextLineBlank(s: string) { NetBlank(s) && NEXT_LINE in s }

  lemma BlankDiffers(s: string)
    requires !JsBlank(s)
    ensures NetBlank(s) <==> NextLineBlank(s)
  {
    if NetBlank(s) {
      var i :| 0 <= i < |s| && !JsSpace(s[i]);
      assert s[i] == NEXT_LINE;
    }
  }

  datatype Error =
    | ArgumentError | ConnectionError | PublishError | SubscriptionError | CloseError | NotSupported

  datatype Result<+T> = Ok(value: T) | Err(error: Error)

  datatype BusMessage = BusMessage(
    target: string, routingKey: Option<string>, payload: string,
    replyTo: Option<string>, correlationId: Option<string>, headers: map<string, string>)

  /** What the constructor promises of every message. */
  predicate ValidMessage(m: BusMessage) {
    (m.target != "" ==> !NetBlank(m.target)) && !NetBlank(m.payload)
  }

  /** The constructor; None stands for null. */
  function Construct(target: Option<string>, routingKey: Option<string>, payload: Option<string>,
                     replyTo: Option<string>, correlationId: Option<string>, headers: map<string, string>): (r: Result<BusMessage>)
    ensures r.Ok? ==> ValidMessage(r.value)
  {
    if target.None? then Err(ArgumentError)
    else if |target.value| > 0 && NetBlank(target.value) then Err(ArgumentError)
    else if payload.None? || NetBlank(payload.value) then Err(ArgumentError)
    else Ok(BusMessage(target.value, routingKey, payload.value, replyTo, correlationId, headers))
  }

  /** Exactly the fields of a valid message are accepted, and they are carried over unchanged. */
  lemma ConstructExactly(target: Option<string>, routingKey: Option<string>, payload: Option<string>,
                         replyTo: Option<string>, correlationId: Option<string>, headers: map<string, string>)
    ensures var r := Construct(target, routingKey, payload, replyTo, correlationId, headers);
            && (r.Ok? <==> target.Some? && payload.Some?
                           && ValidMessage(BusMessage(target.value, routingKey, payload.value, replyTo, correlationId, headers)))
            && (r.Ok? ==> target == Some(r.value.target) && payload == Some(r.value.payload) && routingKey == r.value.routingKey
                          && replyTo == r.value.replyTo && correlationId == r.value.correlationId && headers == r.value.headers)
            && (r.Err? ==> r.error == ArgumentError)
  {
  }

  /** One delivery by the broker client, its body already decoded. */
  datatype Delivery = Delivery(
    exchange: string, routingKey: string, body: string, replyTo: Option<string>, correlationId: Option<string>)

  const DEFAULT_EXCHANGE := "(default)"

  /** The consumer callback's mapping; a blank body makes the constructor throw and the delivery is lost. */
  function FromDelivery(d: Delivery): Result<BusMessage> {
    var exchange := if d.exchange == "" then DEFAULT_EXCHANGE else d.exchange;
    Construct(Some(exchange), Some(d.routingKey), Some(d.body), d.replyTo, d.correlationId, map[])
  }

  /** A delivery is accepted exactly if its body is not blank and its exchange is the default one or not blank; it
      carries every property over under its own name. */
  lemma DeliveryExactly(d: Delivery)
    ensures FromDelivery(d) ==
              if NetBlank(d.body) || (d.exchange != "" && NetBlank(d.exchange)) then Err(ArgumentError)
              else Ok(BusMessage(if d.exchange == "" then "(default)" else d.exchange, Some(d.routingKey), d.body,
                                 d.replyTo, d.correlationId, map[]))
  {
    assert "(default)"[0] == '(';
  }

  /** Some delivery maps to the message. */
  ghost predicate Delivered(m: BusMessage) {
    exists d :: FromDelivery(d) == Ok(m)
  }

  /** A delivered message always names an exchange and has a payload. */
  lemma DeliveredNamesExchange(m: BusMessage)
    requires Delivered(m)
    ensures ValidMessage(m) && m.target != "" && m.routingKey.Some? && m.headers == map[]
  {
  }

  datatype MessageReceivedDto = MessageReceivedDto(
    subscriptionId: Handle, exchange: string, routingKey: string, payload: string,
    replyTo: Option<string>, correlationId: Option<string>)

  function FromDomain(id: Handle, m: BusMessage): MessageReceivedDto {
    MessageReceivedDto(id, m.target, if m.routingKey.Some? then m.routingKey.value else "", m.payload, m.replyTo, m.correlationId)
  }
}
