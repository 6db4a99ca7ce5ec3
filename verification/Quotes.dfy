/**
  The quote of a message, in and out of the daemon: the wire context becomes a quote in an event
  (`quote_of` in `event_mapping.rs`), a client's quote becomes a checked reference
  (`QuotedRef::from_proto` in `key.rs`), and the reference becomes the wire context of a reply
  (`copy_quote` in `outgoing_context.rs`). One side fills in the chat, the other drops it.
 */
module Quotes {
  import opened Options

  datatype Error = InvalidJid(value: string) | EmptyQuotedId | MessageWithoutQuote

  datatype Result<T> = Ok(value: T) | Err(error: Error)

  /** The library's parser and printer of jids. */
  datatype Library<!J> = Library(parse: string -> Option<J>, show: J -> string)

  /** What the daemon relies on: what is printed is not empty and parses back. */
  ghost predicate Lawful<J(!new)>(lib: Library<J>) {
    forall j :: lib.show(j) != "" && lib.parse(lib.show(j)) == Some(j)
  }

  // ---------------------------------------------------------------- jids (`jid.rs`)

  /** `pb::Jid`. */
  datatype WireJid = WireJid(value: string)

  /** Unset or empty is absence; anything else has to parse. */
  function FromOptionalWire<J>(lib: Library<J>, jid: Option<WireJid>): Result<Option<J>> {
    if jid.Some? && jid.value.value != "" then
      match lib.parse(jid.value.value)
      case Some(j) => Ok(Some(j))
      case None => Err(InvalidJid(jid.value.value))
    else Ok(None)
  }

  /** The value verbatim; an empty one is an unset field. */
  function RelayJid(value: string): Option<WireJid> {
    if value == "" then None else Some(WireJid(value))
  }

  // ---------------------------------------------------------------- in (`event_mapping.rs`)

  /** The quote fields of `wa::ContextInfo`. */
  datatype Context = Context(stanzaId: Option<string>, participant: Option<string>, remoteJid: Option<string>)

  datatype MessageKey = MessageKey(chat: Option<WireJid>, id: string, fromMe: bool, participant: Option<WireJid>)

  datatype QuoteContext = QuoteContext(quoted: Option<MessageKey>, participant: Option<WireJid>)

  function OrEmpty(s: Option<string>): string {
    if s.Some? then s.value else ""
  }

  function QuoteOf(ci: Context, replyChat: string): Option<QuoteContext> {
    if ci.stanzaId.None? then None
    else
      var participant := RelayJid(OrEmpty(ci.participant));
      var chat := if OrEmpty(ci.remoteJid) != "" then ci.remoteJid.value else replyChat;
      Some(QuoteContext(Some(MessageKey(RelayJid(chat), ci.stanzaId.value, false, participant)), participant))
  }

  // ---------------------------------------------------------------- checked (`key.rs`)

  datatype QuotedRef<J> = QuotedRef(id: string, participant: Option<J>, remoteChat: Option<J>, message: seq<nat>)

  /** The key's chat when it names another chat than the destination. A destination that does not
      parse is none. */
  function RemoteChatOf<J(==)>(lib: Library<J>, key: MessageKey, destination: Option<WireJid>): Result<Option<J>> {
    match FromOptionalWire(lib, key.chat)
    case Err(e) => Err(e)
    case Ok(None) => Ok(None)
    case Ok(Some(chat)) =>
      var dest := match FromOptionalWire(lib, destination) case Ok(d) => d case Err(_) => None;
      Ok(if dest == Some(chat) then None else Some(chat))
  }

  function Participant<J>(lib: Library<J>, quote: QuoteContext, key: MessageKey): Result<Option<J>> {
    match FromOptionalWire(lib, quote.participant)
    case Err(e) => Err(e)
    case Ok(Some(own)) => Ok(Some(own))
    case Ok(None) => FromOptionalWire(lib, key.participant)
  }

  function FromProto<J(==)>(lib: Library<J>, quote: Option<QuoteContext>, message: seq<nat>, destination: Option<WireJid>)
      : Result<Option<QuotedRef<J>>>
  {
    if quote.None? || quote.value.quoted.None? then
      if message == [] then Ok(None) else Err(MessageWithoutQuote)
    else
      var key := quote.value.quoted.value;
      if key.id == "" then Err(EmptyQuotedId)
      else
        match Participant(lib, quote.value, key)
        case Err(e) => Err(e)
        case Ok(participant) =>
          match RemoteChatOf(lib, key, destination)
          case Err(e) => Err(e)
          case Ok(chat) => Ok(Some(QuotedRef(key.id, participant, chat, message)))
  }

  // ---------------------------------------------------------------- out (`outgoing_context.rs`)

  function Shown<J>(lib: Library<J>, j: Option<J>): Option<string> {
    if j.Some? then Some(lib.show(j.value)) else None
  }

  function CopyQuote<J>(lib: Library<J>, quote: QuotedRef<J>): Context {
    Context(Some(quote.id), Shown(lib, quote.participant), Shown(lib, quote.remoteChat))
  }

  // ---------------------------------------------------------------- the relay cancels out

  /** What an optional text names: nothing when absent or empty. */
  function Named<J>(lib: Library<J>, text: Option<string>): Option<J> {
    if OrEmpty(text) == "" then None else lib.parse(text.value)
  }

  /** It is absent or empty, or it parses. */
  predicate Fine<J>(lib: Library<J>, text: Option<string>) {
    OrEmpty(text) == "" || lib.parse(text.value).Some?
  }

  /** A client that quotes what an event of chat `d` quoted, back in `d`: accepted exactly when the
      context's id is set and its jids parse; and then the reference is the context's own, with a
      chat exactly when the context named another than `d`. */
  lemma {:induction false} RelayCancels<J>(lib: Library<J>, ci: Context, d: string, message: seq<nat>)
    requires lib.parse(d).Some? && d != "" && ci.stanzaId.Some?
    ensures var r := FromProto(lib, QuoteOf(ci, d), message, RelayJid(d));
            && (r.Ok? <==> ci.stanzaId.value != "" && Fine(lib, ci.participant) && Fine(lib, ci.remoteJid))
            && (r.Ok? ==> r.value == Some(QuotedRef(ci.stanzaId.value, Named(lib, ci.participant),
                                            if Named(lib, ci.remoteJid) == lib.parse(d) then None else Named(lib, ci.remoteJid),
                                            message)))
            && (ci.stanzaId.value == "" ==> r == Err(EmptyQuotedId))
  {
  }

  /** No stanza id is no quote, and a quoted payload then has nothing to ride in. */
  lemma {:induction false} NoStanzaNoQuote<J>(lib: Library<J>, ci: Context, d: string, message: seq<nat>)
    requires ci.stanzaId.None?
    ensures FromProto(lib, QuoteOf(ci, d), message, RelayJid(d)) == if message == [] then Ok(None) else Err(MessageWithoutQuote)
  {
  }

  /** A reference sent to `d`, received back in `d` and quoted again is the same reference, unless it
      names `d` itself as its chat, which the wire does not carry. */
  lemma {:induction false} SentAndQuotedAgain<J(!new)>(lib: Library<J>, q: QuotedRef<J>, d: string)
    requires Lawful(lib) && q.id != "" && d != "" && lib.parse(d).Some?
    ensures FromProto(lib, QuoteOf(CopyQuote(lib, q), d), q.message, RelayJid(d)) == Ok(Some(q))
            <==> q.remoteChat != lib.parse(d)
  {
    RelayCancels(lib, CopyQuote(lib, q), d, q.message);
  }

  /** Every reference the daemon accepts for `d` is such a one: its own output never names `d`. */
  lemma {:induction false} AcceptedSurvives<J(!new)>(lib: Library<J>, quote: Option<QuoteContext>, message: seq<nat>, d: string)
    requires Lawful(lib) && d != "" && lib.parse(d).Some?
    requires var r := FromProto(lib, quote, message, RelayJid(d)); r.Ok? && r.value.Some?
    ensures var q := FromProto(lib, quote, message, RelayJid(d)).value.value;
            FromProto(lib, QuoteOf(CopyQuote(lib, q), d), q.message, RelayJid(d)) == Ok(Some(q))
  {
    var q := FromProto(lib, quote, message, RelayJid(d)).value.value;
    assert q.remoteChat != lib.parse(d);
    SentAndQuotedAgain(lib, q, d);
  }

  // ---------------------------------------------------------------- every quote a client may send

  /** The text of an optional wire jid, "" when unset. */
  function TextOf(jid: Option<WireJid>): string {
    if jid.Some? then jid.value.value else ""
  }

  function Parsed<J>(lib: Library<J>, text: string): Option<J> {
    if text == "" then None else lib.parse(text)
  }

  /** Whatever the request: without a quoted key there is no quote, and no payload may come; an empty
      id is refused; the participant is the context's own when it is set and not empty, else the key's;
      the chat is kept when it is another than the destination, and a destination that is missing or
      malformed is none. A malformed participant, and then a malformed chat, is refused by name. */
  lemma {:induction false} CheckedExactly<J>(lib: Library<J>, quote: Option<QuoteContext>, message: seq<nat>,
                                             destination: Option<WireJid>)
    ensures var r := FromProto(lib, quote, message, destination);
            if quote.None? || quote.value.quoted.None? then
              r == if message == [] then Ok(None) else Err(MessageWithoutQuote)
            else
              var key := quote.value.quoted.value;
              var own, chat := TextOf(quote.value.participant), TextOf(key.chat);
              var participant := if own != "" then own else TextOf(key.participant);
              if key.id == "" then r == Err(EmptyQuotedId)
              else if participant != "" && lib.parse(participant).None? then r == Err(InvalidJid(participant))
              else if chat != "" && lib.parse(chat).None? then r == Err(InvalidJid(chat))
              else
                r == Ok(Some(QuotedRef(key.id, Parsed(lib, participant),
                                       if Parsed(lib, chat) == Parsed(lib, TextOf(destination)) then None else Parsed(lib, chat),
                                       message)))
  {
  }

  /** What an event says of a quote: the id, someone else's message, the sender in both places, and the
      chat the context names, else the reply's own. */
  lemma {:induction false} EventQuotes(ci: Context, replyChat: string)
    requires ci.stanzaId.Some?
    ensures var q := QuoteOf(ci, replyChat);
            && q.Some? && q.value.quoted.Some?
            && var key := q.value.quoted.value;
               && key.id == ci.stanzaId.value && !key.fromMe
               && TextOf(key.participant) == TextOf(q.value.participant) == OrEmpty(ci.participant)
               && TextOf(key.chat) == (if OrEmpty(ci.remoteJid) == "" then replyChat else OrEmpty(ci.remoteJid))
               && (key.chat.Some? ==> key.chat.value.value != "")
               && (key.participant.Some? ==> key.participant.value.value != "")
  {
  }
}
