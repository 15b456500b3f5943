/**
  The `messages.upsert` handler of the WhatsApp bot
  (adamsbot/WhatsAppBot/WhatsAppBot/WhatsAppBot/index.js): it reads the first
  message of the batch, finds its text and sender, and answers the `.menu`,
  `.addprem`, `.removeprem` and `.status` commands over an in-memory set of
  premium users' JIDs.
*/
module PremiumBot {
  import opened Wrappers
  import opened Text

  /** `msg.key` */
  datatype MessageKey = MessageKey(remoteJid: string, participant: Option<string>, fromMe: bool)

  /** `msg.message.extendedTextMessage`, with `contextInfo.mentionedJid` absent as `None`. */
  datatype ExtendedText = ExtendedText(text: Option<string>, mentionedJid: Option<seq<string>>)

  /** `msg.message` */
  datatype Payload = Payload(conversation: Option<string>, extended: Option<ExtendedText>)

  datatype WaMessage = WaMessage(key: MessageKey, message: Option<Payload>)

  /** `a || b` on an optional string: the empty string is falsy too. */
  function OrElse(a: Option<string>, b: string): (r: string)
    ensures a.Some? && a.value != "" ==> r == a.value
    ensures !(a.Some? && a.value != "") ==> r == b
  {
    if a.Some? && a.value != "" then a.value else b
  }

  /** `msg.key.participant || msg.key.remoteJid`: the author in a group, the chat otherwise. */
  function Sender(key: MessageKey): string {
    OrElse(key.participant, key.remoteJid)
  }

  /** `msg.message.extendedTextMessage?.text` */
  function ExtendedTextOf(p: Payload): Option<string> {
    if p.extended.Some? then p.extended.value.text else None
  }

  /** `conversation || extendedTextMessage?.text || ''` */
  function Body(p: Payload): (body: string)
    ensures p.conversation.Some? && p.conversation.value != "" ==> body == p.conversation.value
    ensures body != "" && body != ExtendedTextOf(p).GetOr("") ==> p.conversation == Some(body)
  {
    OrElse(p.conversation, OrElse(ExtendedTextOf(p), ""))
  }

  /** `extendedTextMessage?.contextInfo?.mentionedJid?.[0]`, when truthy. */
  function Mentioned(p: Payload): (m: Option<string>)
    ensures m.Some? ==> m.value != ""
    ensures m.Some? <==> p.extended.Some? && p.extended.value.mentionedJid.Some?
                         && p.extended.value.mentionedJid.value != [] && p.extended.value.mentionedJid.value[0] != ""
  {
    if p.extended.Some? && p.extended.value.mentionedJid.Some? then
      var jids := p.extended.value.mentionedJid.value;
      if jids != [] && jids[0] != "" then Some(jids[0]) else None
    else None
  }

  /** `jid.split('@')[0]`: the user part of a JID, up to its first '@'. */
  function UserPart(jid: string): (r: string)
    ensures |r| <= |jid| && r == jid[..|r|]
    ensures forall i :: 0 <= i < |r| ==> r[i] != '@'
    ensures |r| < |jid| ==> jid[|r|] == '@'
  {
    if jid == [] || jid[0] == '@' then [] else [jid[0]] + UserPart(jid[1..])
  }

  datatype Command = Menu | AddPrem | RemovePrem | Status

  const MenuPrefix: string := ".menu"
  const AddPrefix: string := ".addprem"
  const RemovePrefix: string := ".removeprem"
  const StatusPrefix: string := ".status"

  /** The command a body starts with. The handler tests the four prefixes one
      after the other, not as an else-chain, but their second characters differ,
      so no body starts with two of them. */
  function CommandOf(body: string): (c: Option<Command>)
    ensures c == Some(Menu) <==> StartsWith(body, MenuPrefix)
    ensures c == Some(AddPrem) <==> StartsWith(body, AddPrefix)
    ensures c == Some(RemovePrem) <==> StartsWith(body, RemovePrefix)
    ensures c == Some(Status) <==> StartsWith(body, StatusPrefix)
  {
    PrefixesExclusive(body, MenuPrefix, AddPrefix, 1);
    PrefixesExclusive(body, MenuPrefix, RemovePrefix, 1);
    PrefixesExclusive(body, MenuPrefix, StatusPrefix, 1);
    PrefixesExclusive(body, AddPrefix, RemovePrefix, 1);
    PrefixesExclusive(body, AddPrefix, StatusPrefix, 1);
    PrefixesExclusive(body, RemovePrefix, StatusPrefix, 1);
    if StartsWith(body, MenuPrefix) then Some(Menu)
    else if StartsWith(body, AddPrefix) then Some(AddPrem)
    else if StartsWith(body, RemovePrefix) then Some(RemovePrem)
    else if StartsWith(body, StatusPrefix) then Some(Status)
    else None
  }

  datatype Reply =
    | MenuCard(user: string, mention: string)
    | MentionNeeded(command: Command)
    | NowPremium(user: string, mention: string)
    | NoLongerPremium(user: string, mention: string)
    | PremiumStatus(premium: bool)

  /** A reply and the chat (`from`, the remote JID) it goes to. */
  datatype Outgoing = Outgoing(to: string, reply: Reply)

  /** The message the handler acts on: the first of the batch, when it has a
      payload and was not sent by the bot itself. An empty batch makes
      `messages[0].message` throw, which ends the handler as well. */
  predicate Handled(messages: seq<WaMessage>) {
    messages != [] && messages[0].message.Some? && !messages[0].key.fromMe
  }

  /** The premium set after one upsert. */
  function NextPremium(users: set<string>, messages: seq<WaMessage>): (r: set<string>)
    ensures !Handled(messages) ==> r == users
    ensures Handled(messages) ==>
      var p := messages[0].message.value;
      && (CommandOf(Body(p)) == Some(AddPrem) && Mentioned(p).Some? ==> r == users + {Mentioned(p).value})
      && (CommandOf(Body(p)) == Some(RemovePrem) && Mentioned(p).Some? ==> r == users - {Mentioned(p).value})
      && (CommandOf(Body(p)) !in {Some(AddPrem), Some(RemovePrem)} || Mentioned(p).None? ==> r == users)
  {
    if !Handled(messages) then users
    else
      var p := messages[0].message.value;
      match (CommandOf(Body(p)), Mentioned(p))
      case (Some(AddPrem), Some(jid)) => users + {jid}
      case (Some(RemovePrem), Some(jid)) => users - {jid}
      case _ => users
  }

  /** The replies to one upsert, given the premium set before it. */
  function Replies(users: set<string>, messages: seq<WaMessage>): (r: seq<Outgoing>)
    ensures !Handled(messages) || CommandOf(Body(messages[0].message.value)).None? ==> r == []
    ensures Handled(messages) && CommandOf(Body(messages[0].message.value)).Some? ==>
      |r| == 1 && r[0].to == messages[0].key.remoteJid
  {
    if !Handled(messages) then []
    else
      var msg := messages[0];
      var p := msg.message.value;
      var from := msg.key.remoteJid;
      var sender := Sender(msg.key);
      match CommandOf(Body(p))
      case None => []
      case Some(Menu) => [Outgoing(from, MenuCard(UserPart(sender), sender))]
      case Some(AddPrem) =>
        if Mentioned(p).None? then [Outgoing(from, MentionNeeded(AddPrem))]
        else [Outgoing(from, NowPremium(UserPart(Mentioned(p).value), Mentioned(p).value))]
      case Some(RemovePrem) =>
        if Mentioned(p).None? then [Outgoing(from, MentionNeeded(RemovePrem))]
        else [Outgoing(from, NoLongerPremium(UserPart(Mentioned(p).value), Mentioned(p).value))]
      case Some(Status) => [Outgoing(from, PremiumStatus(sender in users))]
  }

  /** Delivering the same upsert twice leaves the same premium set as once. */
  lemma UpsertIdempotent(users: set<string>, messages: seq<WaMessage>)
    ensures NextPremium(NextPremium(users, messages), messages) == NextPremium(users, messages)
  {
  }

  /** Only `.addprem` and `.removeprem`, with a mention, change the set. */
  lemma OnlyPremiumCommandsChange(users: set<string>, messages: seq<WaMessage>)
    requires NextPremium(users, messages) != users
    ensures Handled(messages)
    ensures CommandOf(Body(messages[0].message.value)) in {Some(AddPrem), Some(RemovePrem)}
    ensures Mentioned(messages[0].message.value).Some?
  {
  }

  /** Neither premium command checks who sent it: the set changes the same way
      whoever the author is. */
  lemma AnyoneCanGrant(users: set<string>, messages: seq<WaMessage>, author: Option<string>)
    requires messages != []
    ensures var m := messages[0];
      NextPremium(users, [m.(key := m.key.(participant := author))] + messages[1..]) == NextPremium(users, messages)
  {
  }

  /** After a `.addprem` naming a JID, a `.status` from that JID in a private
      chat reports premium; after a `.removeprem`, not premium. */
  lemma StatusAfterGrant(users: set<string>, grant: seq<WaMessage>, jid: string, ask: Payload)
    requires Handled(grant)
    requires Mentioned(grant[0].message.value) == Some(jid)
    requires CommandOf(Body(grant[0].message.value)) in {Some(AddPrem), Some(RemovePrem)}
    requires StartsWith(Body(ask), StatusPrefix)
    ensures var status := [WaMessage(MessageKey(jid, None, false), Some(ask))];
      Replies(NextPremium(users, grant), status) ==
        [Outgoing(jid, PremiumStatus(CommandOf(Body(grant[0].message.value)) == Some(AddPrem)))]
  {
    var status := [WaMessage(MessageKey(jid, None, false), Some(ask))];
    assert Sender(status[0].key) == jid;
  }

  /** The bot process: the premium set kept in memory, and what it has sent. */
  class Bot {
    var premiumUsers: set<string>
    var outbox: seq<Outgoing>

    constructor()
      ensures premiumUsers == {} && outbox == []
    {
      premiumUsers := {};
      outbox := [];
    }

    /** The `messages.upsert` listener. */
    method HandleUpsert(messages: seq<WaMessage>)
      modifies this
      ensures premiumUsers == NextPremium(old(premiumUsers), messages)
      ensures outbox == old(outbox) + Replies(old(premiumUsers), messages)
    {
      if messages == [] {
        return;
      }
      var msg := messages[0];
      if msg.message.None? || msg.key.fromMe {
        return;
      }
      var p := msg.message.value;
      var from := msg.key.remoteJid;
      var sender := Sender(msg.key);
      var body := Body(p);
      ghost var command := CommandOf(body);

      if StartsWith(body, MenuPrefix) {
        outbox := outbox + [Outgoing(from, MenuCard(UserPart(sender), sender))];
      }

      if StartsWith(body, AddPrefix) {
        var mentioned := Mentioned(p);
        if mentioned.None? {
          outbox := outbox + [Outgoing(from, MentionNeeded(AddPrem))];
          return;
        }
        premiumUsers := premiumUsers + {mentioned.value};
        outbox := outbox + [Outgoing(from, NowPremium(UserPart(mentioned.value), mentioned.value))];
      }

      if StartsWith(body, RemovePrefix) {
        var mentioned := Mentioned(p);
        if mentioned.None? {
          outbox := outbox + [Outgoing(from, MentionNeeded(RemovePrem))];
          return;
        }
        premiumUsers := premiumUsers - {mentioned.value};
        outbox := outbox + [Outgoing(from, NoLongerPremium(UserPart(mentioned.value), mentioned.value))];
      }

      if StartsWith(body, StatusPrefix) {
        outbox := outbox + [Outgoing(from, PremiumStatus(sender in premiumUsers))];
      }
    }
  }
}
