/**
  The per-chat conversation engine of the Telegram bot in index.js.

  Five stores keyed by chat id drive two guided flows and their housekeeping:
  `userStates` (the stage of the website flow), `siteSessions` (website Q&A
  progress), `userSessions` (flyer progress), `waitingForContactMessage` (chats
  whose next message goes to the admin) and `sessionTimeout` (time of the last
  message). `userData[chatId].joinedWhatsApp` gates the website flow. Everything
  the bot sends is appended to an outbox as an abstract notice.

  Each `bot.on("message")` listener is a method, and `HandleMessage` runs them
  in the order index.js registers them; the button listeners likewise make up
  `HandleCallback`. The `setInterval` sweeper is `Tick(now)`.
*/
module ChatEngine {
  import opened Wrappers
  import opened Text
  import Catalog
  import FileTypes

  type ChatId = int

  /** `adminId`: receives contact messages; the only user the admin buttons serve. */
  const AdminId: ChatId := 7782756234

  /** `SESSION_EXPIRY`: ten minutes, in milliseconds. */
  const SessionExpiry: int := 10 * 60 * 1000

  /** `userStates[chatId].step`: "template" or "website_qna". */
  datatype Stage = ChoosingTemplate | WebsiteQna

  /** The keys of a website plan: `template` and the keys of `websiteQuestions`. */
  datatype WebsiteField = TemplateField | TitleField | StyleField | FeaturesField | ColorsField | ModeField

  /** `websiteQuestions.length` */
  const QuestionCount: nat := 5

  /** `websiteQuestions[i].key` */
  function QuestionKey(i: nat): (f: WebsiteField)
    requires i < QuestionCount
    ensures f != TemplateField
  {
    [TitleField, StyleField, FeaturesField, ColorsField, ModeField][i]
  }

  /** The question that asks for `f`: the inverse of `QuestionKey`. */
  function QuestionIndex(f: WebsiteField): (i: nat)
    requires f != TemplateField
    ensures i < QuestionCount && QuestionKey(i) == f
  {
    match f
    case TitleField => 0
    case StyleField => 1
    case FeaturesField => 2
    case ColorsField => 3
    case ModeField => 4
  }

  /** A `siteSessions` entry: the index of the question being answered and the
      answers so far (`None` where the message had no text). */
  datatype SiteSession = SiteSession(step: nat, data: map<WebsiteField, Option<string>>)

  /** The step indexes a question, and only questions already passed have answers. */
  predicate ValidSite(s: SiteSession) {
    && s.step < QuestionCount
    && forall f :: f in s.data && f != TemplateField ==> QuestionIndex(f) < s.step
  }

  /** The keys of `session.data` in the flyer flow. */
  datatype FlyerField = FlyerType | FlyerTitle | FlyerDescription | FlyerContact | BgImageUrl | LogoUrl

  /** The field the flyer flow's step `n` (1 to 6) asks for. */
  function FlyerFieldAt(n: nat): FlyerField
    requires 1 <= n <= 6
  {
    [FlyerType, FlyerTitle, FlyerDescription, FlyerContact, BgImageUrl, LogoUrl][n - 1]
  }

  /** A `userSessions` entry: steps 1 to 6 ask for a field, 7 means a flyer was
      shown, 8 is the edit menu. */
  datatype FlyerSession = FlyerSession(step: nat, data: map<FlyerField, Option<string>>)

  predicate ValidFlyer(s: FlyerSession) {
    1 <= s.step <= 8
  }

  /** What the bot sends, without its wording. */
  datatype Notice =
    | CancelledNotice
    | WelcomePhoto
    | WelcomeMenu
    | JoinThanks
    | JoinRequired
    | TemplateMenu
    | ContactPrompt
    | ContactForward(sender: ChatId, text: Option<string>)
    | ContactDelivered
    | ContactFailed
    | TemplateSelected(template: string)
    | InvalidTemplate
    | WebsiteQuestion(index: nat)
    | WebsiteSummary(plan: map<WebsiteField, Option<string>>)
    | FlyerQuestion(step: nat)
    | FlyerGenerating
    | FlyerReady
    | FlyerFailed
    | EditMenu
    | EditPrompt(step: nat)
    | InvalidEditOption
    | FlyerComplete
    | SessionExpired
    | NotAuthorizedAlert
    | WebsitesOverview
    | PremiumList
    | PricingText
    | HelpText
    | AdminPanel
    | AdminReport(action: string)
    | FileSent(delivery: FileTypes.Delivery)

  datatype Outgoing = Outgoing(to: ChatId, notice: Notice)

  /** The stores of the engine, as one value. */
  datatype Stores = Stores(
    userStates: map<ChatId, Stage>,
    siteSessions: map<ChatId, SiteSession>,
    userSessions: map<ChatId, FlyerSession>,
    waitingForContact: set<ChatId>,
    sessionTimeout: map<ChatId, int>,
    joinedWhatsApp: set<ChatId>)

  /** Every website session belongs to a chat in the website flow, and every
      session is at a step its flow has. */
  predicate WellFormed(s: Stores) {
    && s.siteSessions.Keys <= s.userStates.Keys
    && (forall c :: c in s.siteSessions ==> ValidSite(s.siteSessions[c]))
    && (forall c :: c in s.userSessions ==> ValidFlyer(s.userSessions[c]))
  }

  /** The four object stores without the chats in `gone` (`delete store[chatId]`);
      the contact set is not an object store and is left alone. */
  function Forget(s: Stores, gone: set<ChatId>): (r: Stores)
    ensures r.waitingForContact == s.waitingForContact && r.joinedWhatsApp == s.joinedWhatsApp
    ensures forall c :: c in gone ==>
      c !in r.userStates && c !in r.siteSessions && c !in r.userSessions && c !in r.sessionTimeout
    ensures WellFormed(s) ==> WellFormed(r)
  {
    s.(userStates := s.userStates - gone,
       siteSessions := s.siteSessions - gone,
       userSessions := s.userSessions - gone,
       sessionTimeout := s.sessionTimeout - gone)
  }

  /** Cancelling: every store forgets the chat, the contact set included. */
  function Cancelled(s: Stores, c: ChatId): (r: Stores)
    ensures c !in r.userStates && c !in r.siteSessions && c !in r.userSessions
    ensures c !in r.waitingForContact && c !in r.sessionTimeout
    ensures r.joinedWhatsApp == s.joinedWhatsApp
    ensures WellFormed(s) ==> WellFormed(r)
  {
    Forget(s, {c}).(waitingForContact := s.waitingForContact - {c})
  }

  /** Cancelling twice leaves the stores as cancelling once. */
  lemma CancelIdempotent(s: Stores, c: ChatId)
    ensures Cancelled(Cancelled(s, c), c) == Cancelled(s, c)
  {
  }

  /** Everything the stores hold about one chat. */
  datatype ChatView = ChatView(
    stage: Option<Stage>,
    site: Option<SiteSession>,
    flyer: Option<FlyerSession>,
    waiting: bool,
    lastSeen: Option<int>,
    joined: bool)

  function Lookup<V>(m: map<ChatId, V>, c: ChatId): Option<V> {
    if c in m then Some(m[c]) else None
  }

  function ViewOf(s: Stores, c: ChatId): ChatView {
    ChatView(Lookup(s.userStates, c), Lookup(s.siteSessions, c), Lookup(s.userSessions, c),
             c in s.waitingForContact, Lookup(s.sessionTimeout, c), c in s.joinedWhatsApp)
  }

  /** `a` and `b` agree on every chat but `c`. */
  ghost predicate SameExcept(a: Stores, b: Stores, c: ChatId) {
    forall k :: k != c ==> ViewOf(a, k) == ViewOf(b, k)
  }

  lemma SameExceptTransitive(a: Stores, b: Stores, c: Stores, chat: ChatId)
    requires SameExcept(a, b, chat) && SameExcept(b, c, chat)
    ensures SameExcept(a, c, chat)
  {
  }

  /** The chats whose last message is more than `SessionExpiry` before `now`. */
  function Expired(timeouts: map<ChatId, int>, now: int): (gone: set<ChatId>)
    ensures forall c :: c in gone <==> c in timeouts && now - timeouts[c] > SessionExpiry
  {
    set c | c in timeouts && now - timeouts[c] > SessionExpiry
  }

  /** Once swept, no chat is due again at the same time, and a chat is due only
      while the sweep has not forgotten its timestamp. */
  lemma SweepLeavesNothingDue(s: Stores, now: int)
    ensures Expired(Forget(s, Expired(s.sessionTimeout, now)).sessionTimeout, now) == {}
  {
  }

  /** The expiry comparison is strict: a chat idle for exactly ten minutes stays. */
  lemma ExpiryIsStrict(timeouts: map<ChatId, int>, c: ChatId, now: int)
    requires c in timeouts && now - timeouts[c] <= SessionExpiry
    ensures c !in Expired(timeouts, now)
  {
  }

  /** One expiry notice for each chat of `cs`, in that order. */
  function ExpiryNotices(cs: seq<ChatId>): (r: seq<Outgoing>)
    ensures |r| == |cs|
    ensures forall i :: 0 <= i < |cs| ==> r[i] == Outgoing(cs[i], SessionExpired)
  {
    if cs == [] then [] else [Outgoing(cs[0], SessionExpired)] + ExpiryNotices(cs[1..])
  }

  predicate NoDuplicates(cs: seq<ChatId>) {
    forall i, j :: 0 <= i < j < |cs| ==> cs[i] != cs[j]
  }

  /** `text.toLowerCase()` is "✅ joined" or "joined"; the text is not trimmed. */
  predicate IsJoinedReply(text: string) {
    Lower(text) == "\U{2705} joined" || Lower(text) == "joined"
  }

  /** `msg.text?.trim()` */
  function TrimmedText(text: Option<string>): Option<string> {
    match text
    case Some(t) => Some(Trim(t))
    case None => None
  }

  /** The optional flyer fields: "skip" in any case stands for no value. */
  function SkipOrText(t: string): (r: Option<string>)
    ensures r == None <==> Lower(t) == "skip"
    ensures r != None ==> r == Some(t)
  {
    if Lower(t) == "skip" then None else Some(t)
  }

  /** The edit menu's `switch (text)`: exactly the texts "1" to "6" select a step. */
  function EditChoice(t: string): (r: Option<nat>)
    ensures r.Some? ==> 1 <= r.value <= 6 && t == DecimalString(r.value)
    ensures r.None? ==> forall n :: 1 <= n <= 6 ==> t != DecimalString(n)
  {
    if t == "1" then Some(1)
    else if t == "2" then Some(2)
    else if t == "3" then Some(3)
    else if t == "4" then Some(4)
    else if t == "5" then Some(5)
    else if t == "6" then Some(6)
    else None
  }

  /** The informational buttons of the main callback handler: one reply, no state. */
  function InfoNotice(data: string): Option<Notice> {
    if data == "mywebsites" then Some(WebsitesOverview)
    else if data == "premium" then Some(PremiumList)
    else if data == "pricing" then Some(PricingText)
    else if data == "help" then Some(HelpText)
    else if data == "admin" then Some(AdminPanel)
    else None
  }

  /** The buttons of the admin panel, served by the second callback handler. */
  predicate IsAdminAction(data: string) {
    data == "admin_users" || data == "admin_websitedata" || data == "admin_stats" || data == "show_users"
  }

  lemma EmptyOrMember(s: set<ChatId>)
    ensures s == {} || exists c :: c in s
  {
    if forall c :: c !in s {
      assert s == {};
    }
  }

  /** Some key of a non-empty key set: `for..in` visits every key once, in an
      order this model leaves open. */
  method PickChat(pending: set<ChatId>) returns (c: ChatId)
    requires pending != {}
    ensures c in pending
  {
    EmptyOrMember(pending);
    c :| c in pending;
  }

  /** What a listener does to one message: the stores after it, and what it
      sends, in order. */
  datatype Effect = Effect(stores: Stores, sent: seq<Outgoing>)

  /** Listener at index.js:240, as a value. */
  function JoinedEffect(s: Stores, c: ChatId, text: Option<string>): (e: Effect)
    ensures WellFormed(s) ==> WellFormed(e.stores)
    ensures e.stores.(joinedWhatsApp := s.joinedWhatsApp) == s
  {
    if text.Some? && IsJoinedReply(text.value) then
      Effect(s.(joinedWhatsApp := s.joinedWhatsApp + {c}), [Outgoing(c, JoinThanks)])
    else Effect(s, [])
  }

  /** Listener at index.js:328, as a value: `sender` is `msg.from.id`, which
      differs from the chat in a group, and `delivered` is whether the forward
      to the admin went through. */
  function ContactEffect(s: Stores, c: ChatId, sender: ChatId, text: Option<string>, delivered: bool): (e: Effect)
    ensures WellFormed(s) ==> WellFormed(e.stores)
    ensures e.stores.(waitingForContact := s.waitingForContact) == s
    ensures c !in e.stores.waitingForContact
  {
    if c in s.waitingForContact then
      Effect(s.(waitingForContact := s.waitingForContact - {c}),
             [Outgoing(AdminId, ContactForward(sender, TrimmedText(text))),
              Outgoing(c, if delivered then ContactDelivered else ContactFailed)])
    else Effect(s, [])
  }

  predicate Choosing(s: Stores, c: ChatId) {
    c in s.userStates && s.userStates[c] == ChoosingTemplate
  }

  /** `msg.text.trim()` throws: the chat is choosing a template and the message
      has no text. */
  predicate ThrowsOnChoice(s: Stores, c: ChatId, text: Option<string>) {
    Choosing(s, c) && text.None?
  }

  /** A message that picks a catalogue template while the chat is choosing one. */
  predicate Picks(s: Stores, templates: seq<string>, c: ChatId, text: Option<string>) {
    Choosing(s, c) && text.Some? && Catalog.Includes(templates, Catalog.NormalizeChoice(text.value))
  }

  /** Listener at index.js:364, as a value. */
  function ChoiceEffect(s: Stores, templates: seq<string>, c: ChatId, text: Option<string>, now: int): (e: Effect)
    ensures WellFormed(s) ==> WellFormed(e.stores)
    ensures e.stores.sessionTimeout == s.sessionTimeout[c := now]
    ensures e.stores.userSessions == s.userSessions
    ensures e.stores.waitingForContact == s.waitingForContact && e.stores.joinedWhatsApp == s.joinedWhatsApp
  {
    var stamped := s.(sessionTimeout := s.sessionTimeout[c := now]);
    if !Choosing(s, c) || text.None? then Effect(stamped, [])
    else
      var choice := Catalog.NormalizeChoice(text.value);
      if !Catalog.Includes(templates, choice) then Effect(stamped, [Outgoing(c, InvalidTemplate)])
      else if c in s.siteSessions then Effect(stamped.(userStates := s.userStates[c := WebsiteQna]), [])
      else
        Effect(stamped.(userStates := s.userStates[c := WebsiteQna],
                        siteSessions := s.siteSessions[c := SiteSession(1, map[TemplateField := Some(choice)])]),
               [Outgoing(c, TemplateSelected(choice))])
  }

  /** Listener at index.js:402, as a value. */
  function AnswerEffect(s: Stores, c: ChatId, text: Option<string>): (e: Effect)
    requires WellFormed(s)
    ensures WellFormed(e.stores)
    ensures e.stores == s.(siteSessions := e.stores.siteSessions)
  {
    if c !in s.userStates then Effect(s, [])
    else if c !in s.siteSessions then
      Effect(s.(siteSessions := s.siteSessions[c := SiteSession(0, map[])]), [Outgoing(c, WebsiteQuestion(0))])
    else
      var session := s.siteSessions[c];
      var plan := session.data[QuestionKey(session.step) := text];
      if session.step + 1 < QuestionCount then
        Effect(s.(siteSessions := s.siteSessions[c := SiteSession(session.step + 1, plan)]),
               [Outgoing(c, WebsiteQuestion(session.step + 1))])
      else
        Effect(s.(siteSessions := s.siteSessions - {c}), [Outgoing(c, WebsiteSummary(plan))])
  }

  /** Listener at index.js:594, as a value. */
  function FlyerEffect(s: Stores, c: ChatId, text: Option<string>, renderOk: bool): (e: Effect)
    ensures WellFormed(s) ==> WellFormed(e.stores)
    ensures e.stores == s.(userSessions := e.stores.userSessions)
  {
    var t := Trim(text.GetOr(""));
    if c !in s.userSessions || t == [] || StartsWith(t, "/") then Effect(s, [])
    else
      var session := s.userSessions[c];
      if 1 <= session.step <= 4 then
        Effect(s.(userSessions := s.userSessions[c := FlyerSession(session.step + 1, session.data[FlyerFieldAt(session.step) := Some(t)])]),
               [Outgoing(c, FlyerQuestion(session.step + 1))])
      else if session.step == 5 then
        Effect(s.(userSessions := s.userSessions[c := FlyerSession(6, session.data[BgImageUrl := SkipOrText(t)])]),
               [Outgoing(c, FlyerQuestion(6))])
      else if session.step == 6 && renderOk then
        Effect(s.(userSessions := s.userSessions[c := FlyerSession(7, session.data[LogoUrl := SkipOrText(t)])]),
               [Outgoing(c, FlyerGenerating), Outgoing(c, FlyerReady)])
      else if session.step == 6 then
        Effect(s.(userSessions := s.userSessions - {c}), [Outgoing(c, FlyerGenerating), Outgoing(c, FlyerFailed)])
      else if session.step == 8 then
        match EditChoice(t)
        case Some(n) => Effect(s.(userSessions := s.userSessions[c := FlyerSession(n, session.data)]), [Outgoing(c, EditPrompt(n))])
        case None => Effect(s, [Outgoing(c, InvalidEditOption)])
      else Effect(s, [])
  }

  /** The flyer listener changes no chat but the one it serves. */
  lemma FlyerStaysLocal(s: Stores, c: ChatId, text: Option<string>, renderOk: bool)
    ensures SameExcept(s, FlyerEffect(s, c, text, renderOk).stores, c)
  {
  }

  /** What the flyer listener does at each step, stated over its effect. */
  lemma FlyerCases(s: Stores, c: ChatId, text: Option<string>, renderOk: bool)
    ensures var e := FlyerEffect(s, c, text, renderOk);
      var t := Trim(text.GetOr(""));
      c !in s.userSessions || t == [] || StartsWith(t, "/") ==>
        e.stores.userSessions == s.userSessions && e.sent == []
    ensures var e := FlyerEffect(s, c, text, renderOk);
      var t := Trim(text.GetOr(""));
      c in s.userSessions && t != [] && !StartsWith(t, "/") ==>
        var f := s.userSessions[c];
        && (1 <= f.step <= 5 ==>
              var value := if f.step == 5 then SkipOrText(t) else Some(t);
              && e.stores.userSessions == s.userSessions[c := FlyerSession(f.step + 1, f.data[FlyerFieldAt(f.step) := value])]
              && e.sent == [Outgoing(c, FlyerQuestion(f.step + 1))])
        && (f.step == 6 && renderOk ==>
              && e.stores.userSessions == s.userSessions[c := FlyerSession(7, f.data[LogoUrl := SkipOrText(t)])]
              && e.sent == [Outgoing(c, FlyerGenerating), Outgoing(c, FlyerReady)])
        && (f.step == 6 && !renderOk ==>
              && e.stores.userSessions == s.userSessions - {c}
              && e.sent == [Outgoing(c, FlyerGenerating), Outgoing(c, FlyerFailed)])
        && (f.step == 7 ==> e.stores.userSessions == s.userSessions && e.sent == [])
        && (f.step == 8 && EditChoice(t).Some? ==>
              var n := EditChoice(t).value;
              && e.stores.userSessions == s.userSessions[c := FlyerSession(n, f.data)]
              && e.sent == [Outgoing(c, EditPrompt(n))])
        && (f.step == 8 && EditChoice(t).None? ==>
              e.stores.userSessions == s.userSessions && e.sent == [Outgoing(c, InvalidEditOption)])
  {
    var t := Trim(text.GetOr(""));
    if c in s.userSessions && t != [] && !StartsWith(t, "/") && s.userSessions[c].step == 5 {
      assert FlyerFieldAt(5) == BgImageUrl;
    }
  }

  /** The three flow listeners in registration order. When the template listener
      throws, the other two do not run. */
  function Route(s: Stores, templates: seq<string>, c: ChatId, text: Option<string>, now: int, renderOk: bool): (e: Effect)
    requires WellFormed(s)
    ensures WellFormed(e.stores)
    ensures e.stores.sessionTimeout == s.sessionTimeout[c := now]
    ensures e.stores.waitingForContact == s.waitingForContact && e.stores.joinedWhatsApp == s.joinedWhatsApp
  {
    var e1 := ChoiceEffect(s, templates, c, text, now);
    if ThrowsOnChoice(s, c, text) then e1
    else
      var e2 := AnswerEffect(e1.stores, c, text);
      var e3 := FlyerEffect(e2.stores, c, text, renderOk);
      Effect(e3.stores, e1.sent + e2.sent + e3.sent)
  }

  /** One message through all five listeners: joined confirmation, contact
      forwarding, then the flow listeners. */
  function Arrival(s: Stores, templates: seq<string>, c: ChatId, sender: ChatId, text: Option<string>,
                   delivered: bool, now: int, renderOk: bool): (e: Effect)
    requires WellFormed(s)
    ensures WellFormed(e.stores)
    ensures e.stores.sessionTimeout == s.sessionTimeout[c := now]
    ensures e.stores.waitingForContact == s.waitingForContact - {c}
    ensures c in e.stores.joinedWhatsApp <==> c in s.joinedWhatsApp || (text.Some? && IsJoinedReply(text.value))
  {
    var e1 := JoinedEffect(s, c, text);
    var e2 := ContactEffect(e1.stores, c, sender, text, delivered);
    var e3 := Route(e2.stores, templates, c, text, now, renderOk);
    Effect(e3.stores, e1.sent + e2.sent + e3.sent)
  }

  /** `Route` when the template listener does not throw: the three listeners'
      effects, one after the other. */
  lemma RouteDef(s: Stores, templates: seq<string>, c: ChatId, text: Option<string>, now: int, renderOk: bool)
    requires WellFormed(s) && !ThrowsOnChoice(s, c, text)
    ensures var e1 := ChoiceEffect(s, templates, c, text, now);
      var e2 := AnswerEffect(e1.stores, c, text);
      var e3 := FlyerEffect(e2.stores, c, text, renderOk);
      Route(s, templates, c, text, now, renderOk) == Effect(e3.stores, e1.sent + e2.sent + e3.sent)
  {
  }

  lemma AppendThree<T>(o: seq<T>, x: seq<T>, y: seq<T>, z: seq<T>)
    ensures o + x + y + z == o + (x + y + z)
  {
  }

  /** The joined and contact listeners touch neither the stages nor the sessions,
      so the flow stores after a message are those the flow listeners alone give. */
  lemma ArrivalFlowStores(s: Stores, templates: seq<string>, c: ChatId, sender: ChatId, text: Option<string>,
                          delivered: bool, now: int, renderOk: bool)
    requires WellFormed(s)
    ensures var a := Arrival(s, templates, c, sender, text, delivered, now, renderOk).stores;
      var r := Route(s, templates, c, text, now, renderOk).stores;
      a.userStates == r.userStates && a.siteSessions == r.siteSessions && a.userSessions == r.userSessions
  {
    var e1 := JoinedEffect(s, c, text);
    var e2 := ContactEffect(e1.stores, c, sender, text, delivered);
    var flows := s.(waitingForContact := e2.stores.waitingForContact, joinedWhatsApp := e2.stores.joinedWhatsApp);
    assert e2.stores == flows;
    RouteIgnoresFlags(s, flows, templates, c, text, now, renderOk);
  }

  /** The flow listeners read neither the contact set nor the joined flags. */
  lemma RouteIgnoresFlags(s: Stores, t: Stores, templates: seq<string>, c: ChatId, text: Option<string>, now: int, renderOk: bool)
    requires WellFormed(s) && WellFormed(t)
    requires t == s.(waitingForContact := t.waitingForContact, joinedWhatsApp := t.joinedWhatsApp)
    ensures var a := Route(s, templates, c, text, now, renderOk);
      var b := Route(t, templates, c, text, now, renderOk);
      a.sent == b.sent && b.stores == a.stores.(waitingForContact := t.waitingForContact, joinedWhatsApp := t.joinedWhatsApp)
  {
    var a1 := ChoiceEffect(s, templates, c, text, now);
    var b1 := ChoiceEffect(t, templates, c, text, now);
    ChoiceIgnoresFlags(s, t, templates, c, text, now);
    if !ThrowsOnChoice(s, c, text) {
      var a2 := AnswerEffect(a1.stores, c, text);
      var b2 := AnswerEffect(b1.stores, c, text);
      AnswerIgnoresFlags(a1.stores, b1.stores, c, text);
      FlyerReadsOwnStore(a2.stores, b2.stores, c, text, renderOk);
    }
  }

  lemma ChoiceIgnoresFlags(s: Stores, t: Stores, templates: seq<string>, c: ChatId, text: Option<string>, now: int)
    requires t == s.(waitingForContact := t.waitingForContact, joinedWhatsApp := t.joinedWhatsApp)
    ensures var a := ChoiceEffect(s, templates, c, text, now);
      var b := ChoiceEffect(t, templates, c, text, now);
      a.sent == b.sent && b.stores == a.stores.(waitingForContact := t.waitingForContact, joinedWhatsApp := t.joinedWhatsApp)
  {
  }

  lemma AnswerIgnoresFlags(s: Stores, t: Stores, c: ChatId, text: Option<string>)
    requires WellFormed(s) && WellFormed(t)
    requires t == s.(waitingForContact := t.waitingForContact, joinedWhatsApp := t.joinedWhatsApp)
    ensures var a := AnswerEffect(s, c, text);
      var b := AnswerEffect(t, c, text);
      a.sent == b.sent && b.stores == a.stores.(waitingForContact := t.waitingForContact, joinedWhatsApp := t.joinedWhatsApp)
  {
  }

  /** The flyer listener reads only the flyer sessions. */
  lemma FlyerReadsOwnStore(s: Stores, t: Stores, c: ChatId, text: Option<string>, renderOk: bool)
    requires s.userSessions == t.userSessions
    ensures var a := FlyerEffect(s, c, text, renderOk);
      var b := FlyerEffect(t, c, text, renderOk);
      a.sent == b.sent && b.stores == t.(userSessions := a.stores.userSessions)
  {
  }

  /** A reply that picks a template while no website session exists is taken by
      the template listener and then again by the Q&A listener, as the answer to
      question 1 (style): the title question is skipped. */
  lemma PickSkipsTitle(s: Stores, templates: seq<string>, c: ChatId, pick: string, now: int, renderOk: bool)
    requires WellFormed(s)
    requires Picks(s, templates, c, Some(pick)) && c !in s.siteSessions
    ensures var e := Route(s, templates, c, Some(pick), now, renderOk);
      var choice := Catalog.NormalizeChoice(pick);
      && e.stores.userStates == s.userStates[c := WebsiteQna]
      && e.stores.siteSessions == s.siteSessions[c := SiteSession(2, map[TemplateField := Some(choice), StyleField := Some(pick)])]
      && |e.sent| >= 2 && e.sent[..2] == [Outgoing(c, TemplateSelected(choice)), Outgoing(c, WebsiteQuestion(2))]
  {
    var choice := Catalog.NormalizeChoice(pick);
    var e1 := ChoiceEffect(s, templates, c, Some(pick), now);
    assert e1.stores.siteSessions[c] == SiteSession(1, map[TemplateField := Some(choice)]);
    assert QuestionKey(1) == StyleField;
    var e2 := AnswerEffect(e1.stores, c, Some(pick));
    assert e2.stores.siteSessions == s.siteSessions[c := SiteSession(2, map[TemplateField := Some(choice), StyleField := Some(pick)])];
  }

  /** While a website session is open, every message that does not throw answers
      its current question, whatever the stage: a reply that misses the catalogue
      while the chat is back at the template menu is first refused and then still
      stored as the answer. */
  lemma RouteStoresAnswer(s: Stores, templates: seq<string>, c: ChatId, text: Option<string>, now: int, renderOk: bool)
    requires WellFormed(s)
    requires c in s.siteSessions && !ThrowsOnChoice(s, c, text)
    ensures var e := Route(s, templates, c, text, now, renderOk);
      var session := s.siteSessions[c];
      var plan := session.data[QuestionKey(session.step) := text];
      var refused := if Choosing(s, c) && !Picks(s, templates, c, text) then [Outgoing(c, InvalidTemplate)] else [];
      var asked := if session.step + 1 < QuestionCount then WebsiteQuestion(session.step + 1) else WebsiteSummary(plan);
      && e.stores.userStates == (if Picks(s, templates, c, text) then s.userStates[c := WebsiteQna] else s.userStates)
      && e.stores.siteSessions == (if session.step + 1 < QuestionCount
                                   then s.siteSessions[c := SiteSession(session.step + 1, plan)]
                                   else s.siteSessions - {c})
      && |e.sent| > |refused| && e.sent[..|refused| + 1] == refused + [Outgoing(c, asked)]
  {
    var session := s.siteSessions[c];
    var plan := session.data[QuestionKey(session.step) := text];
    var refused := if Choosing(s, c) && !Picks(s, templates, c, text) then [Outgoing(c, InvalidTemplate)] else [];
    var asked := if session.step + 1 < QuestionCount then WebsiteQuestion(session.step + 1) else WebsiteSummary(plan);
    var e1 := ChoiceEffect(s, templates, c, text, now);
    assert e1.stores.siteSessions == s.siteSessions;
    assert e1.sent == refused;
    var e2 := AnswerEffect(e1.stores, c, text);
    assert e2.sent == [Outgoing(c, asked)];
    var e3 := FlyerEffect(e2.stores, c, text, renderOk);
    RouteDef(s, templates, c, text, now, renderOk);
    var sent := e1.sent + e2.sent + e3.sent;
    assert sent[..|refused| + 1] == refused + [Outgoing(c, asked)];
  }

  /** A chat with a stage and no website session gets one opened at question 0,
      unless the message picks a template (`PickSkipsTitle`). */
  lemma RouteOpensSession(s: Stores, templates: seq<string>, c: ChatId, text: Option<string>, now: int, renderOk: bool)
    requires WellFormed(s)
    requires c in s.userStates && c !in s.siteSessions && !ThrowsOnChoice(s, c, text) && !Picks(s, templates, c, text)
    ensures var e := Route(s, templates, c, text, now, renderOk);
      var refused := if Choosing(s, c) then [Outgoing(c, InvalidTemplate)] else [];
      && e.stores.userStates == s.userStates
      && e.stores.siteSessions == s.siteSessions[c := SiteSession(0, map[])]
      && |e.sent| > |refused| && e.sent[..|refused| + 1] == refused + [Outgoing(c, WebsiteQuestion(0))]
  {
    var e1 := ChoiceEffect(s, templates, c, text, now);
    assert e1.stores.siteSessions == s.siteSessions && e1.stores.userStates == s.userStates;
    assert e1.sent == (if Choosing(s, c) then [Outgoing(c, InvalidTemplate)] else []);
  }

  /** The cases of `Route` that decide where a chat in the website flow stands.
      A pick with no session is also taken as the style answer (`PickSkipsTitle`);
      any other text leaves the stage at "template", while the Q&A listener still
      opens a session at question 0 when there is none; a message without text
      while choosing stops after the throw; and the flyer flow never consumes an
      empty text or a command. */
  lemma RouteCases(s: Stores, templates: seq<string>, c: ChatId, text: Option<string>, now: int, renderOk: bool)
    requires WellFormed(s)
    ensures var r := Route(s, templates, c, text, now, renderOk).stores;
      Picks(s, templates, c, text) && c !in s.siteSessions ==>
        && c in r.userStates && r.userStates[c] == WebsiteQna && c in r.siteSessions
        && r.siteSessions[c] == SiteSession(2, map[TemplateField := Some(Catalog.NormalizeChoice(text.value)), StyleField := text])
    ensures var r := Route(s, templates, c, text, now, renderOk).stores;
      Choosing(s, c) && text.Some? && !Picks(s, templates, c, text) ==>
        && c in r.userStates && r.userStates[c] == ChoosingTemplate
        && (c !in s.siteSessions ==> c in r.siteSessions && r.siteSessions[c] == SiteSession(0, map[]))
    ensures var r := Route(s, templates, c, text, now, renderOk).stores;
      ThrowsOnChoice(s, c, text) ==>
        r.userStates == s.userStates && r.siteSessions == s.siteSessions && r.userSessions == s.userSessions
    ensures var t := Trim(text.GetOr(""));
      t == [] || StartsWith(t, "/") ==> Route(s, templates, c, text, now, renderOk).stores.userSessions == s.userSessions
  {
    var r := Route(s, templates, c, text, now, renderOk).stores;
    if !ThrowsOnChoice(s, c, text) {
      assert r.userSessions == FlyerEffect(s, c, text, renderOk).stores.userSessions by {
        RouteEndsWithFlyer(s, templates, c, text, now, renderOk);
      }
      if Picks(s, templates, c, text) && c !in s.siteSessions {
        assert r.userStates == s.userStates[c := WebsiteQna]
          && r.siteSessions == s.siteSessions[c := SiteSession(2, map[TemplateField := Some(Catalog.NormalizeChoice(text.value)), StyleField := text])] by {
          PickSkipsTitle(s, templates, c, text.value, now, renderOk);
        }
      } else if Choosing(s, c) && text.Some? && !Picks(s, templates, c, text) && c in s.siteSessions {
        assert r.userStates == s.userStates by {
          RouteStoresAnswer(s, templates, c, text, now, renderOk);
        }
      } else if Choosing(s, c) && text.Some? && !Picks(s, templates, c, text) {
        assert r.userStates == s.userStates && r.siteSessions == s.siteSessions[c := SiteSession(0, map[])] by {
          RouteOpensSession(s, templates, c, text, now, renderOk);
        }
      }
    }
  }

  /** The flyer listener comes last and sees its session as the message found it:
      its step is `FlyerEffect`'s, and what it sends closes the reply. */
  lemma RouteEndsWithFlyer(s: Stores, templates: seq<string>, c: ChatId, text: Option<string>, now: int, renderOk: bool)
    requires WellFormed(s) && !ThrowsOnChoice(s, c, text)
    ensures var e := Route(s, templates, c, text, now, renderOk);
      var f := FlyerEffect(s, c, text, renderOk);
      && e.stores.userSessions == f.stores.userSessions
      && |e.sent| >= |f.sent| && e.sent[|e.sent| - |f.sent|..] == f.sent
  {
    var e1 := ChoiceEffect(s, templates, c, text, now);
    var e2 := AnswerEffect(e1.stores, c, text);
    FlyerReadsOwnStore(s, e2.stores, c, text, renderOk);
    var f := FlyerEffect(s, c, text, renderOk);
    var e := Route(s, templates, c, text, now, renderOk);
    assert e.sent == (e1.sent + e2.sent) + f.sent;
  }

  /** The flyer fields that steps 1 to 4 record are trimmed texts. */
  lemma FlyerStoresTrimmed(s: Stores, c: ChatId, text: Option<string>, renderOk: bool)
    requires c in s.userSessions && 1 <= s.userSessions[c].step <= 4
    requires var t := Trim(text.GetOr("")); t != [] && !StartsWith(t, "/")
    ensures var e := FlyerEffect(s, c, text, renderOk);
      var field := FlyerFieldAt(s.userSessions[c].step);
      && c in e.stores.userSessions && field in e.stores.userSessions[c].data
      && e.stores.userSessions[c].data[field].Some?
      && Trim(e.stores.userSessions[c].data[field].value) == e.stores.userSessions[c].data[field].value
  {
    TrimIdempotent(text.GetOr(""));
  }

  /** One answer in the Q&A stage, for a chat outside the flyer flow: exactly the
      next question, or the summary, goes out. */
  lemma AnswerInQna(s: Stores, templates: seq<string>, c: ChatId, text: Option<string>, now: int, renderOk: bool)
    requires WellFormed(s)
    requires c in s.userStates && s.userStates[c] == WebsiteQna && c in s.siteSessions && c !in s.userSessions
    ensures var e := Route(s, templates, c, text, now, renderOk);
      var session := s.siteSessions[c];
      var plan := session.data[QuestionKey(session.step) := text];
      && e.stores.userStates == s.userStates && c !in e.stores.userSessions
      && (session.step + 1 < QuestionCount ==>
            e.stores.siteSessions == s.siteSessions[c := SiteSession(session.step + 1, plan)]
            && e.sent == [Outgoing(c, WebsiteQuestion(session.step + 1))])
      && (session.step + 1 >= QuestionCount ==>
            e.stores.siteSessions == s.siteSessions - {c} && e.sent == [Outgoing(c, WebsiteSummary(plan))])
  {
    var e1 := ChoiceEffect(s, templates, c, text, now);
    assert e1.sent == [] && e1.stores.siteSessions == s.siteSessions && e1.stores.userStates == s.userStates;
    var e2 := AnswerEffect(e1.stores, c, text);
    assert FlyerEffect(e2.stores, c, text, renderOk).sent == [];
  }

  /** A template pick, for a chat outside both sessions: the selection and the
      third question go out, and the session stands at question 2. */
  lemma PickInTemplateStage(s: Stores, templates: seq<string>, c: ChatId, pick: string, now: int, renderOk: bool)
    requires WellFormed(s)
    requires Picks(s, templates, c, Some(pick)) && c !in s.siteSessions && c !in s.userSessions
    ensures var e := Route(s, templates, c, Some(pick), now, renderOk);
      var choice := Catalog.NormalizeChoice(pick);
      && e.stores.userStates == s.userStates[c := WebsiteQna] && c !in e.stores.userSessions
      && e.stores.siteSessions == s.siteSessions[c := SiteSession(2, map[TemplateField := Some(choice), StyleField := Some(pick)])]
      && e.sent == [Outgoing(c, TemplateSelected(choice)), Outgoing(c, WebsiteQuestion(2))]
  {
    PickSkipsTitle(s, templates, c, pick, now, renderOk);
    RouteEndsWithFlyer(s, templates, c, Some(pick), now, renderOk);
  }


  /** Several messages of one chat through the flow listeners, at one time. */
  function Replay(s: Stores, templates: seq<string>, c: ChatId, texts: seq<Option<string>>, now: int, renderOk: bool): (e: Effect)
    requires WellFormed(s)
    ensures WellFormed(e.stores)
    decreases |texts|
  {
    if texts == [] then Effect(s, [])
    else
      var first := Route(s, templates, c, texts[0], now, renderOk);
      var rest := Replay(first.stores, templates, c, texts[1..], now, renderOk);
      Effect(rest.stores, first.sent + rest.sent)
  }

  /** The replies the Q&A owes a chat at question `step` with answers `data` so far,
      for the texts of its remaining questions: the next questions one by one, then
      the plan with every text stored under its question's key. */
  function QnaReplies(c: ChatId, step: nat, data: map<WebsiteField, Option<string>>, texts: seq<Option<string>>): (r: seq<Outgoing>)
    requires texts != [] && step + |texts| == QuestionCount
    ensures |r| == |texts|
    ensures forall i :: 0 <= i < |r| - 1 ==> r[i] == Outgoing(c, WebsiteQuestion(step + i + 1))
    ensures r[|r| - 1].to == c && r[|r| - 1].notice.WebsiteSummary?
    decreases |texts|
  {
    var plan := data[QuestionKey(step) := texts[0]];
    if |texts| == 1 then [Outgoing(c, WebsiteSummary(plan))]
    else [Outgoing(c, WebsiteQuestion(step + 1))] + QnaReplies(c, step + 1, plan, texts[1..])
  }

  /** In the Q&A stage and outside the flyer flow, the texts for the remaining
      questions get exactly `QnaReplies`, and the session is gone afterwards while
      the stage stays. */
  lemma {:induction false} QnaReplay(s: Stores, templates: seq<string>, c: ChatId, texts: seq<Option<string>>, now: int, renderOk: bool)
    requires WellFormed(s)
    requires c in s.userStates && s.userStates[c] == WebsiteQna && c in s.siteSessions && c !in s.userSessions
    requires s.siteSessions[c].step + |texts| == QuestionCount
    ensures texts != []
    ensures var e := Replay(s, templates, c, texts, now, renderOk);
      && e.stores.userStates == s.userStates && c !in e.stores.siteSessions
      && e.sent == QnaReplies(c, s.siteSessions[c].step, s.siteSessions[c].data, texts)
    decreases |texts|
  {
    AnswerInQna(s, templates, c, texts[0], now, renderOk);
    ReplayUnfolds(s, templates, c, texts, now, renderOk);
    if |texts| > 1 {
      var s1 := Route(s, templates, c, texts[0], now, renderOk).stores;
      QnaReplay(s1, templates, c, texts[1..], now, renderOk);
    }
  }

  /** Five messages in the Q&A stage, from question 0, outside the flyer flow: each
      of the first four gets the next question, the fifth the plan holding exactly
      the five texts, and the session is gone while the stage stays. */
  lemma FiveAnswersSummarise(s: Stores, templates: seq<string>, c: ChatId,
                             a0: Option<string>, a1: Option<string>, a2: Option<string>, a3: Option<string>, a4: Option<string>,
                             now: int, renderOk: bool)
    requires WellFormed(s)
    requires c in s.userStates && s.userStates[c] == WebsiteQna
    requires c in s.siteSessions && s.siteSessions[c] == SiteSession(0, map[]) && c !in s.userSessions
    ensures var e := Replay(s, templates, c, [a0, a1, a2, a3, a4], now, renderOk);
      && e.stores.userStates == s.userStates && c !in e.stores.siteSessions
      && e.sent == [Outgoing(c, WebsiteQuestion(1)), Outgoing(c, WebsiteQuestion(2)), Outgoing(c, WebsiteQuestion(3)),
                    Outgoing(c, WebsiteQuestion(4)),
                    Outgoing(c, WebsiteSummary(map[TitleField := a0, StyleField := a1, FeaturesField := a2,
                                                   ColorsField := a3, ModeField := a4]))]
  {
    QnaReplay(s, templates, c, [a0, a1, a2, a3, a4], now, renderOk);
    QnaFirstTwo(c, a0, a1, a2, a3, a4);
  }

  /** The replies to a full run of answers from question 0. */
  lemma QnaFirstTwo(c: ChatId, a0: Option<string>, a1: Option<string>, a2: Option<string>, a3: Option<string>, a4: Option<string>)
    ensures QnaReplies(c, 0, map[], [a0, a1, a2, a3, a4])
      == [Outgoing(c, WebsiteQuestion(1)), Outgoing(c, WebsiteQuestion(2)), Outgoing(c, WebsiteQuestion(3)),
          Outgoing(c, WebsiteQuestion(4)),
          Outgoing(c, WebsiteSummary(map[TitleField := a0, StyleField := a1, FeaturesField := a2,
                                         ColorsField := a3, ModeField := a4]))]
  {
    assert QuestionKey(0) == TitleField && QuestionKey(1) == StyleField;
    var m1 := map[TitleField := a0];
    var m2 := m1[StyleField := a1];
    assert [a0, a1, a2, a3, a4][1..] == [a1, a2, a3, a4] && [a1, a2, a3, a4][1..] == [a2, a3, a4];
    QnaLastThree(c, m2, a2, a3, a4);
    var plan := map[TitleField := a0, StyleField := a1, FeaturesField := a2, ColorsField := a3, ModeField := a4];
    assert m2[FeaturesField := a2][ColorsField := a3][ModeField := a4] == plan;
    assert QnaReplies(c, 1, m1, [a1, a2, a3, a4]) == [Outgoing(c, WebsiteQuestion(2))] + QnaReplies(c, 2, m2, [a2, a3, a4]);
    assert QnaReplies(c, 0, map[], [a0, a1, a2, a3, a4]) == [Outgoing(c, WebsiteQuestion(1))] + QnaReplies(c, 1, m1, [a1, a2, a3, a4]);
    JoinOneOneThree(Outgoing(c, WebsiteQuestion(1)), Outgoing(c, WebsiteQuestion(2)),
                    Outgoing(c, WebsiteQuestion(3)), Outgoing(c, WebsiteQuestion(4)), Outgoing(c, WebsiteSummary(plan)));
  }

  lemma JoinOneOneThree<T>(x0: T, x1: T, y0: T, y1: T, y2: T)
    ensures [x0] + ([x1] + [y0, y1, y2]) == [x0, x1, y0, y1, y2]
  {
  }

  /** A template pick followed by three answers, outside the flyer flow: the plan
      holds the template, the pick's own text as the style and the three answers,
      and no title. */
  lemma PickThenThreeAnswers(s: Stores, templates: seq<string>, c: ChatId, pick: string,
                             a2: Option<string>, a3: Option<string>, a4: Option<string>, now: int, renderOk: bool)
    requires WellFormed(s)
    requires Picks(s, templates, c, Some(pick)) && c !in s.siteSessions && c !in s.userSessions
    ensures var e := Replay(s, templates, c, [Some(pick), a2, a3, a4], now, renderOk);
      var choice := Catalog.NormalizeChoice(pick);
      && e.stores.userStates == s.userStates[c := WebsiteQna] && c !in e.stores.siteSessions
      && e.sent == [Outgoing(c, TemplateSelected(choice)), Outgoing(c, WebsiteQuestion(2)),
                    Outgoing(c, WebsiteQuestion(3)), Outgoing(c, WebsiteQuestion(4)),
                    Outgoing(c, WebsiteSummary(map[TemplateField := Some(choice), StyleField := Some(pick),
                                                   FeaturesField := a2, ColorsField := a3, ModeField := a4]))]
  {
    var choice := Catalog.NormalizeChoice(pick);
    var data := map[TemplateField := Some(choice), StyleField := Some(pick)];
    PickInTemplateStage(s, templates, c, pick, now, renderOk);
    var first := Route(s, templates, c, Some(pick), now, renderOk);
    QnaReplay(first.stores, templates, c, [a2, a3, a4], now, renderOk);
    var rest := Replay(first.stores, templates, c, [a2, a3, a4], now, renderOk);
    ReplayUnfolds(s, templates, c, [Some(pick), a2, a3, a4], now, renderOk);
    assert [Some(pick), a2, a3, a4][1..] == [a2, a3, a4];
    assert Replay(s, templates, c, [Some(pick), a2, a3, a4], now, renderOk) == Effect(rest.stores, first.sent + rest.sent);
    QnaLastThree(c, data, a2, a3, a4);
    var plan := map[TemplateField := Some(choice), StyleField := Some(pick), FeaturesField := a2, ColorsField := a3, ModeField := a4];
    assert data[FeaturesField := a2][ColorsField := a3][ModeField := a4] == plan;
    assert rest.sent == [Outgoing(c, WebsiteQuestion(3)), Outgoing(c, WebsiteQuestion(4)), Outgoing(c, WebsiteSummary(plan))];
    JoinTwoThree(Outgoing(c, TemplateSelected(choice)), Outgoing(c, WebsiteQuestion(2)),
                 Outgoing(c, WebsiteQuestion(3)), Outgoing(c, WebsiteQuestion(4)), Outgoing(c, WebsiteSummary(plan)));
    assert rest.stores.userStates == s.userStates[c := WebsiteQna];
  }

  lemma JoinTwoThree<T>(x0: T, x1: T, y0: T, y1: T, y2: T)
    ensures [x0, x1] + [y0, y1, y2] == [x0, x1, y0, y1, y2]
  {
  }

  /** The replies to the answers for questions 2 to 4. */
  lemma QnaLastThree(c: ChatId, data: map<WebsiteField, Option<string>>, a2: Option<string>, a3: Option<string>, a4: Option<string>)
    ensures QnaReplies(c, 2, data, [a2, a3, a4])
      == [Outgoing(c, WebsiteQuestion(3)), Outgoing(c, WebsiteQuestion(4)),
          Outgoing(c, WebsiteSummary(data[FeaturesField := a2][ColorsField := a3][ModeField := a4]))]
  {
    assert QuestionKey(2) == FeaturesField && QuestionKey(3) == ColorsField && QuestionKey(4) == ModeField;
    var m3 := data[FeaturesField := a2];
    var m4 := m3[ColorsField := a3];
    assert [a2, a3, a4][1..] == [a3, a4] && [a3, a4][1..] == [a4];
    assert QnaReplies(c, 4, m4, [a4]) == [Outgoing(c, WebsiteSummary(m4[ModeField := a4]))];
    assert QnaReplies(c, 3, m3, [a3, a4]) == [Outgoing(c, WebsiteQuestion(4)), Outgoing(c, WebsiteSummary(m4[ModeField := a4]))];
  }

  /** One step of `Replay`. */
  lemma ReplayUnfolds(s: Stores, templates: seq<string>, c: ChatId, texts: seq<Option<string>>, now: int, renderOk: bool)
    requires WellFormed(s) && texts != []
    ensures var first := Route(s, templates, c, texts[0], now, renderOk);
      var rest := Replay(first.stores, templates, c, texts[1..], now, renderOk);
      Replay(s, templates, c, texts, now, renderOk) == Effect(rest.stores, first.sent + rest.sent)
      && (|texts| == 1 ==> rest == Effect(first.stores, []))
  {
  }

  class Engine {
    /** `templateList`, fixed when the engine is built. */
    const templates: seq<string>
    var userStates: map<ChatId, Stage>
    var siteSessions: map<ChatId, SiteSession>
    var userSessions: map<ChatId, FlyerSession>
    var waitingForContact: set<ChatId>
    var sessionTimeout: map<ChatId, int>
    var joinedWhatsApp: set<ChatId>
    var outbox: seq<Outgoing>

    ghost function State(): Stores
      reads this
    {
      Stores(userStates, siteSessions, userSessions, waitingForContact, sessionTimeout, joinedWhatsApp)
    }

    ghost predicate Valid()
      reads this
    {
      WellFormed(State())
    }

    /** A fresh process: no sessions; `joined` is what users.json recorded. */
    constructor (joined: set<ChatId>)
      ensures templates == Catalog.TemplateList
      ensures Valid()
      ensures State() == Stores(map[], map[], map[], {}, map[], joined)
      ensures outbox == []
    {
      templates := Catalog.TemplateList;
      userStates, siteSessions, userSessions := map[], map[], map[];
      waitingForContact, sessionTimeout, joinedWhatsApp := {}, map[], joined;
      outbox := [];
    }

    /** `/cancel` and the Cancel button: the chat leaves every store. */
    method Cancel(chatId: ChatId)
      requires Valid()
      modifies this
      ensures Valid()
      ensures State() == Cancelled(old(State()), chatId)
      ensures outbox == old(outbox) + [Outgoing(chatId, CancelledNotice)]
    {
      userStates := userStates - {chatId};
      siteSessions := siteSessions - {chatId};
      userSessions := userSessions - {chatId};
      waitingForContact := waitingForContact - {chatId};
      sessionTimeout := sessionTimeout - {chatId};
      outbox := outbox + [Outgoing(chatId, CancelledNotice)];
    }

    /** `/start`: the four object stores forget the chat; `delete` on the contact
        Set removes a property, not a member, so a pending contact flag survives. */
    method Start(chatId: ChatId)
      requires Valid()
      modifies this
      ensures Valid()
      ensures State() == Forget(old(State()), {chatId})
      ensures waitingForContact == old(waitingForContact)
      ensures outbox == old(outbox) + [Outgoing(chatId, WelcomePhoto), Outgoing(chatId, WelcomeMenu)]
    {
      userStates := userStates - {chatId};
      siteSessions := siteSessions - {chatId};
      userSessions := userSessions - {chatId};
      sessionTimeout := sessionTimeout - {chatId};
      outbox := outbox + [Outgoing(chatId, WelcomePhoto), Outgoing(chatId, WelcomeMenu)];
    }

    /** `/sendtest`: sends ./test.txt through `sendFileAuto`. */
    method SendTest(chatId: ChatId)
      modifies this
      ensures State() == old(State())
      ensures outbox == old(outbox) + [Outgoing(chatId, FileSent(FileTypes.FileDelivery("./test.txt")))]
    {
      outbox := outbox + [Outgoing(chatId, FileSent(FileTypes.FileDelivery("./test.txt")))];
    }

    /** `startCreateFlow`: the chat is (again) choosing a template; an existing
        website session is kept. */
    method StartCreateFlow(chatId: ChatId)
      requires Valid()
      modifies this
      ensures Valid()
      ensures State() == old(State()).(userStates := old(userStates)[chatId := ChoosingTemplate])
      ensures outbox == old(outbox) + [Outgoing(chatId, TemplateMenu)]
    {
      userStates := userStates[chatId := ChoosingTemplate];
      outbox := outbox + [Outgoing(chatId, TemplateMenu)];
    }

    /** `startFlyerFlow` (`/flyer` and the Flyer button): a new flyer session at
        step 1 replaces any earlier one. */
    method StartFlyerFlow(chatId: ChatId)
      requires Valid()
      modifies this
      ensures Valid()
      ensures State() == old(State()).(userSessions := old(userSessions)[chatId := FlyerSession(1, map[])])
      ensures outbox == old(outbox) + [Outgoing(chatId, FlyerQuestion(1))]
    {
      userSessions := userSessions[chatId := FlyerSession(1, map[])];
      outbox := outbox + [Outgoing(chatId, FlyerQuestion(1))];
    }

    /** Listener at index.js:240: "joined" or "✅ joined", in any case, records
        that the chat joined the WhatsApp channel. */
    method OnJoinedText(chatId: ChatId, text: Option<string>)
      requires Valid()
      modifies this
      ensures Valid()
      ensures SameExcept(old(State()), State(), chatId)
      ensures text.Some? && IsJoinedReply(text.value) ==>
        && State() == old(State()).(joinedWhatsApp := old(joinedWhatsApp) + {chatId})
        && outbox == old(outbox) + [Outgoing(chatId, JoinThanks)]
      ensures !(text.Some? && IsJoinedReply(text.value)) ==> State() == old(State()) && outbox == old(outbox)
      ensures State() == JoinedEffect(old(State()), chatId, text).stores
      ensures outbox == old(outbox) + JoinedEffect(old(State()), chatId, text).sent
    {
      if text.Some? && IsJoinedReply(text.value) {
        joinedWhatsApp := joinedWhatsApp + {chatId};
        outbox := outbox + [Outgoing(chatId, JoinThanks)];
      }
    }

    /** Listener at index.js:328: a chat waiting to contact the admin has this one
        message forwarded, naming its author `senderId` (`msg.from.id`), and stops
        waiting; the chat is then told whether the forward was `delivered`. */
    method OnContactMessage(chatId: ChatId, senderId: ChatId, text: Option<string>, delivered: bool)
      requires Valid()
      modifies this
      ensures Valid()
      ensures SameExcept(old(State()), State(), chatId)
      ensures chatId in old(waitingForContact) ==>
        && State() == old(State()).(waitingForContact := old(waitingForContact) - {chatId})
        && outbox == old(outbox) + [Outgoing(AdminId, ContactForward(senderId, TrimmedText(text))),
                                    Outgoing(chatId, if delivered then ContactDelivered else ContactFailed)]
      ensures chatId !in old(waitingForContact) ==> State() == old(State()) && outbox == old(outbox)
      ensures State() == ContactEffect(old(State()), chatId, senderId, text, delivered).stores
      ensures outbox == old(outbox) + ContactEffect(old(State()), chatId, senderId, text, delivered).sent
    {
      if chatId in waitingForContact {
        outbox := outbox + [Outgoing(AdminId, ContactForward(senderId, TrimmedText(text)))];
        if delivered {
          outbox := outbox + [Outgoing(chatId, ContactDelivered)];
        } else {
          outbox := outbox + [Outgoing(chatId, ContactFailed)];
        }
        waitingForContact := waitingForContact - {chatId};
      }
    }

    /** Listener at index.js:364. Every message stamps the chat's activity time.
        While the chat is choosing a template, the reply is trimmed and lower-cased
        and looked up in the catalogue. A message without text makes `msg.text.trim()`
        throw, and `threw` reports it: the listeners after this one do not run. */
    method OnTemplateChoice(chatId: ChatId, text: Option<string>, now: int) returns (threw: bool)
      requires Valid()
      modifies this
      ensures Valid()
      ensures SameExcept(old(State()), State(), chatId)
      ensures threw <==> chatId in old(userStates) && old(userStates)[chatId] == ChoosingTemplate && text.None?
      ensures !(chatId in old(userStates) && old(userStates)[chatId] == ChoosingTemplate && text.Some?) ==>
        && State() == old(State()).(sessionTimeout := old(sessionTimeout)[chatId := now])
        && outbox == old(outbox)
      ensures chatId in old(userStates) && old(userStates)[chatId] == ChoosingTemplate && text.Some? ==>
        var choice := Catalog.NormalizeChoice(text.value);
        var stamped := old(State()).(sessionTimeout := old(sessionTimeout)[chatId := now]);
        if !Catalog.Includes(templates, choice) then
          State() == stamped && outbox == old(outbox) + [Outgoing(chatId, InvalidTemplate)]
        else if chatId in old(siteSessions) then
          State() == stamped.(userStates := old(userStates)[chatId := WebsiteQna]) && outbox == old(outbox)
        else
          && State() == stamped.(userStates := old(userStates)[chatId := WebsiteQna],
                                 siteSessions := old(siteSessions)[chatId := SiteSession(1, map[TemplateField := Some(choice)])])
          && outbox == old(outbox) + [Outgoing(chatId, TemplateSelected(choice))]
      ensures threw == ThrowsOnChoice(old(State()), chatId, text)
      ensures State() == ChoiceEffect(old(State()), templates, chatId, text, now).stores
      ensures outbox == old(outbox) + ChoiceEffect(old(State()), templates, chatId, text, now).sent
    {
      sessionTimeout := sessionTimeout[chatId := now];
      threw := false;
      if chatId !in userStates || userStates[chatId] != ChoosingTemplate {
        return;
      }
      if text.None? {
        threw := true;
        return;
      }
      var choice := Catalog.NormalizeChoice(text.value);
      if Catalog.Includes(templates, choice) {
        userStates := userStates[chatId := WebsiteQna];
        if chatId !in siteSessions {
          siteSessions := siteSessions[chatId := SiteSession(1, map[TemplateField := Some(choice)])];
          outbox := outbox + [Outgoing(chatId, TemplateSelected(choice))];
        }
      } else {
        outbox := outbox + [Outgoing(chatId, InvalidTemplate)];
      }
    }

    /** Listener at index.js:402. Any chat with a website stage takes part, whatever
        the stage. Without a session, one is opened at question 0 and the question
        is asked; otherwise the raw text answers the current question, and either
        the next question is asked or the plan is summarised and the session
        dropped, while the stage stays. */
    method OnWebsiteAnswer(chatId: ChatId, text: Option<string>)
      requires Valid()
      modifies this
      ensures Valid()
      ensures SameExcept(old(State()), State(), chatId)
      ensures chatId !in old(userStates) ==> State() == old(State()) && outbox == old(outbox)
      ensures chatId in old(userStates) && chatId !in old(siteSessions) ==>
        && State() == old(State()).(siteSessions := old(siteSessions)[chatId := SiteSession(0, map[])])
        && outbox == old(outbox) + [Outgoing(chatId, WebsiteQuestion(0))]
      ensures chatId in old(siteSessions) ==>
        var s := old(siteSessions)[chatId];
        var plan := s.data[QuestionKey(s.step) := text];
        if s.step + 1 < QuestionCount then
          && State() == old(State()).(siteSessions := old(siteSessions)[chatId := SiteSession(s.step + 1, plan)])
          && outbox == old(outbox) + [Outgoing(chatId, WebsiteQuestion(s.step + 1))]
        else
          && State() == old(State()).(siteSessions := old(siteSessions) - {chatId})
          && outbox == old(outbox) + [Outgoing(chatId, WebsiteSummary(plan))]
      ensures State() == AnswerEffect(old(State()), chatId, text).stores
      ensures outbox == old(outbox) + AnswerEffect(old(State()), chatId, text).sent
    {
      if chatId !in userStates {
        return;
      }
      if chatId !in siteSessions {
        siteSessions := siteSessions[chatId := SiteSession(0, map[])];
        outbox := outbox + [Outgoing(chatId, WebsiteQuestion(0))];
        return;
      }
      var s := siteSessions[chatId];
      var plan := s.data[QuestionKey(s.step) := text];
      if s.step + 1 < QuestionCount {
        siteSessions := siteSessions[chatId := SiteSession(s.step + 1, plan)];
        outbox := outbox + [Outgoing(chatId, WebsiteQuestion(s.step + 1))];
      } else {
        outbox := outbox + [Outgoing(chatId, WebsiteSummary(plan))];
        siteSessions := siteSessions - {chatId};
      }
    }

    /** Listener at index.js:594, over the trimmed text. Without a flyer session, or
        for an empty text or one starting with "/", nothing happens. Steps 1 to 4
        store their field and move on; 5 and 6 store "skip" as no value; step 6
        renders the flyer (`renderOk` is whether `generateFlyer` succeeded) and a
        failure drops the session; 7 ignores text; 8 is the edit menu. */
    method OnFlyerMessage(chatId: ChatId, text: Option<string>, renderOk: bool)
      requires Valid()
      modifies this
      ensures Valid()
      ensures SameExcept(old(State()), State(), chatId)
      ensures State() == old(State()).(userSessions := userSessions)
      ensures var t := Trim(text.GetOr(""));
        chatId !in old(userSessions) || t == [] || StartsWith(t, "/") ==>
          userSessions == old(userSessions) && outbox == old(outbox)
      ensures var t := Trim(text.GetOr(""));
        chatId in old(userSessions) && t != [] && !StartsWith(t, "/") ==>
          var s := old(userSessions)[chatId];
          && (1 <= s.step <= 5 ==>
                var value := if s.step == 5 then SkipOrText(t) else Some(t);
                && userSessions == old(userSessions)[chatId := FlyerSession(s.step + 1, s.data[FlyerFieldAt(s.step) := value])]
                && outbox == old(outbox) + [Outgoing(chatId, FlyerQuestion(s.step + 1))])
          && (s.step == 6 && renderOk ==>
                && userSessions == old(userSessions)[chatId := FlyerSession(7, s.data[LogoUrl := SkipOrText(t)])]
                && outbox == old(outbox) + [Outgoing(chatId, FlyerGenerating), Outgoing(chatId, FlyerReady)])
          && (s.step == 6 && !renderOk ==>
                && userSessions == old(userSessions) - {chatId}
                && outbox == old(outbox) + [Outgoing(chatId, FlyerGenerating), Outgoing(chatId, FlyerFailed)])
          && (s.step == 7 ==> userSessions == old(userSessions) && outbox == old(outbox))
          && (s.step == 8 && EditChoice(t).Some? ==>
                var n := EditChoice(t).value;
                && userSessions == old(userSessions)[chatId := FlyerSession(n, s.data)]
                && outbox == old(outbox) + [Outgoing(chatId, EditPrompt(n))])
          && (s.step == 8 && EditChoice(t).None? ==>
                userSessions == old(userSessions) && outbox == old(outbox) + [Outgoing(chatId, InvalidEditOption)])
      ensures State() == FlyerEffect(old(State()), chatId, text, renderOk).stores
      ensures outbox == old(outbox) + FlyerEffect(old(State()), chatId, text, renderOk).sent
    {
      FlyerCases(State(), chatId, text, renderOk);
      FlyerStaysLocal(State(), chatId, text, renderOk);
      var t := Trim(text.GetOr(""));
      if chatId !in userSessions || t == [] || StartsWith(t, "/") {
        return;
      }
      var s := userSessions[chatId];
      if 1 <= s.step <= 4 {
        userSessions := userSessions[chatId := FlyerSession(s.step + 1, s.data[FlyerFieldAt(s.step) := Some(t)])];
        outbox := outbox + [Outgoing(chatId, FlyerQuestion(s.step + 1))];
      } else if s.step == 5 {
        userSessions := userSessions[chatId := FlyerSession(6, s.data[BgImageUrl := SkipOrText(t)])];
        outbox := outbox + [Outgoing(chatId, FlyerQuestion(6))];
      } else if s.step == 6 {
        // "Generating…" goes out before the render is awaited; its outcome follows.
        if renderOk {
          userSessions := userSessions[chatId := FlyerSession(7, s.data[LogoUrl := SkipOrText(t)])];
          outbox := outbox + [Outgoing(chatId, FlyerGenerating), Outgoing(chatId, FlyerReady)];
        } else {
          userSessions := userSessions - {chatId};
          outbox := outbox + [Outgoing(chatId, FlyerGenerating), Outgoing(chatId, FlyerFailed)];
        }
      } else if s.step == 8 {
        var choice := EditChoice(t);
        if choice.Some? {
          userSessions := userSessions[chatId := FlyerSession(choice.value, s.data)];
          outbox := outbox + [Outgoing(chatId, EditPrompt(choice.value))];
        } else {
          outbox := outbox + [Outgoing(chatId, InvalidEditOption)];
        }
      }
    }

    /** The three flow listeners, in registration order, on one message: template
        choice, website Q&A, flyer. The first throws on a missing text while the
        chat chooses a template, and then the other two do not run. */
    method RouteText(chatId: ChatId, text: Option<string>, now: int, renderOk: bool)
      requires Valid()
      modifies this
      ensures Valid()
      ensures SameExcept(old(State()), State(), chatId)
      ensures sessionTimeout == old(sessionTimeout)[chatId := now]
      ensures waitingForContact == old(waitingForContact) && joinedWhatsApp == old(joinedWhatsApp)
      // A reply that names a catalogue template, while no website session exists, is
      // taken by the template listener and then again by the Q&A listener as the
      // answer to question 1 (style): the title question is skipped.
      ensures chatId in old(userStates) && old(userStates)[chatId] == ChoosingTemplate && chatId !in old(siteSessions)
              && text.Some? && Catalog.Includes(templates, Catalog.NormalizeChoice(text.value)) ==>
        && chatId in userStates && userStates[chatId] == WebsiteQna
        && chatId in siteSessions
        && siteSessions[chatId] == SiteSession(2, map[TemplateField := Some(Catalog.NormalizeChoice(text.value)), StyleField := text])
      // Any other text leaves the stage at "template", but the Q&A listener still
      // opens a session at question 0 when there is none.
      ensures chatId in old(userStates) && old(userStates)[chatId] == ChoosingTemplate
              && text.Some? && !Catalog.Includes(templates, Catalog.NormalizeChoice(text.value)) ==>
        && chatId in userStates && userStates[chatId] == ChoosingTemplate
        && (chatId !in old(siteSessions) ==> chatId in siteSessions && siteSessions[chatId] == SiteSession(0, map[]))
      // A message without text while choosing a template stops after the throw.
      ensures chatId in old(userStates) && old(userStates)[chatId] == ChoosingTemplate && text.None? ==>
        && userStates == old(userStates) && siteSessions == old(siteSessions) && userSessions == old(userSessions)
      // The flyer flow never consumes an empty text or a command.
      ensures var t := Trim(text.GetOr("")); t == [] || StartsWith(t, "/") ==> userSessions == old(userSessions)
      // The whole effect; `PickSkipsTitle`, `RouteStoresAnswer`, `RouteOpensSession` and
      // `RouteEndsWithFlyer` spell it out case by case.
      ensures State() == Route(old(State()), templates, chatId, text, now, renderOk).stores
      ensures outbox == old(outbox) + Route(old(State()), templates, chatId, text, now, renderOk).sent
    {
      ghost var s0 := State();
      ghost var o0 := outbox;
      var threw := OnTemplateChoice(chatId, text, now);
      if !threw {
        ghost var e1 := ChoiceEffect(s0, templates, chatId, text, now);
        ghost var s1 := State();
        OnWebsiteAnswer(chatId, text);
        ghost var e2 := AnswerEffect(s1, chatId, text);
        SameExceptTransitive(s0, s1, State(), chatId);
        ghost var s2 := State();
        OnFlyerMessage(chatId, text, renderOk);
        ghost var e3 := FlyerEffect(s2, chatId, text, renderOk);
        SameExceptTransitive(s0, s2, State(), chatId);
        RouteDef(s0, templates, chatId, text, now, renderOk);
        AppendThree(o0, e1.sent, e2.sent, e3.sent);
      }
      RouteCases(s0, templates, chatId, text, now, renderOk);
    }

    /** One incoming message, through the listeners in registration order: joined
        confirmation, contact forwarding, then the three flow listeners. `senderId`
        is `msg.from.id`; `delivered` and `renderOk` are the outcomes of the forward
        to the admin and of the flyer rendering. */
    method HandleMessage(chatId: ChatId, senderId: ChatId, text: Option<string>, delivered: bool, now: int, renderOk: bool)
      requires Valid()
      modifies this
      ensures Valid()
      ensures SameExcept(old(State()), State(), chatId)
      ensures sessionTimeout == old(sessionTimeout)[chatId := now]
      ensures waitingForContact == old(waitingForContact) - {chatId}
      ensures chatId in joinedWhatsApp <==> chatId in old(joinedWhatsApp) || (text.Some? && IsJoinedReply(text.value))
      // The stages and sessions end as the flow listeners alone leave them (`ArrivalFlowStores`).
      ensures State() == Arrival(old(State()), templates, chatId, senderId, text, delivered, now, renderOk).stores
      ensures outbox == old(outbox) + Arrival(old(State()), templates, chatId, senderId, text, delivered, now, renderOk).sent
    {
      ghost var s0 := State();
      ghost var o0 := outbox;
      OnJoinedText(chatId, text);
      ghost var e1 := JoinedEffect(s0, chatId, text);
      ghost var s1 := State();
      OnContactMessage(chatId, senderId, text, delivered);
      ghost var e2 := ContactEffect(s1, chatId, senderId, text, delivered);
      SameExceptTransitive(s0, s1, State(), chatId);
      ghost var s2 := State();
      RouteText(chatId, text, now, renderOk);
      ghost var e3 := Route(s2, templates, chatId, text, now, renderOk);
      SameExceptTransitive(s0, s2, State(), chatId);
      AppendThree(o0, e1.sent, e2.sent, e3.sent);
    }

    /** Callback listener at index.js:256. Buttons whose data starts with "admin"
        are refused to everyone but the admin. "create" needs the joined flag;
        "flyer", "contact" and "cancel" change state; the rest only reply. */
    method OnMainCallback(chatId: ChatId, userId: ChatId, data: string)
      requires Valid()
      modifies this
      ensures Valid()
      ensures SameExcept(old(State()), State(), chatId)
      ensures StartsWith(data, "admin") && userId != AdminId ==>
        State() == old(State()) && outbox == old(outbox) + [Outgoing(chatId, NotAuthorizedAlert)]
      ensures !(StartsWith(data, "admin") && userId != AdminId) ==>
        if data == "create" then
          if chatId in old(joinedWhatsApp) then
            && State() == old(State()).(userStates := old(userStates)[chatId := ChoosingTemplate])
            && outbox == old(outbox) + [Outgoing(chatId, TemplateMenu)]
          else
            State() == old(State()) && outbox == old(outbox) + [Outgoing(chatId, JoinRequired)]
        else if data == "flyer" then
          && State() == old(State()).(userSessions := old(userSessions)[chatId := FlyerSession(1, map[])])
          && outbox == old(outbox) + [Outgoing(chatId, FlyerQuestion(1))]
        else if data == "contact" then
          && State() == old(State()).(waitingForContact := old(waitingForContact) + {chatId})
          && outbox == old(outbox) + [Outgoing(chatId, ContactPrompt)]
        else if data == "cancel" then
          && State() == Cancelled(old(State()), chatId)
          && outbox == old(outbox) + [Outgoing(chatId, CancelledNotice)]
        else
          && State() == old(State())
          && outbox == old(outbox) + (if InfoNotice(data).Some? then [Outgoing(chatId, InfoNotice(data).value)] else [])
    {
      if StartsWith(data, "admin") && userId != AdminId {
        outbox := outbox + [Outgoing(chatId, NotAuthorizedAlert)];
        return;
      }
      if data == "create" {
        if chatId !in joinedWhatsApp {
          outbox := outbox + [Outgoing(chatId, JoinRequired)];
          return;
        }
        StartCreateFlow(chatId);
      } else if data == "flyer" {
        StartFlyerFlow(chatId);
      } else if data == "contact" {
        waitingForContact := waitingForContact + {chatId};
        outbox := outbox + [Outgoing(chatId, ContactPrompt)];
      } else if data == "cancel" {
        Cancel(chatId);
      } else {
        var info := InfoNotice(data);
        if info.Some? {
          outbox := outbox + [Outgoing(chatId, info.value)];
        }
      }
    }

    /** Callback listener at index.js:524: the admin panel's buttons, for the admin only. */
    method OnAdminCallback(chatId: ChatId, userId: ChatId, data: string)
      modifies this
      ensures State() == old(State())
      ensures outbox == old(outbox) + (if userId == AdminId && IsAdminAction(data) then [Outgoing(chatId, AdminReport(data))] else [])
    {
      if userId == AdminId && IsAdminAction(data) {
        outbox := outbox + [Outgoing(chatId, AdminReport(data))];
      }
    }

    /** Callback listener at index.js:660: with a flyer session, "regenerate_flyer"
        opens the edit menu from any step and "done_flyer" ends the session. */
    method OnFlyerCallback(chatId: ChatId, data: string)
      requires Valid()
      modifies this
      ensures Valid()
      ensures SameExcept(old(State()), State(), chatId)
      ensures chatId in old(userSessions) && data == "regenerate_flyer" ==>
        && State() == old(State()).(userSessions := old(userSessions)[chatId := old(userSessions)[chatId].(step := 8)])
        && outbox == old(outbox) + [Outgoing(chatId, EditMenu)]
      ensures chatId in old(userSessions) && data == "done_flyer" ==>
        && State() == old(State()).(userSessions := old(userSessions) - {chatId})
        && outbox == old(outbox) + [Outgoing(chatId, FlyerComplete)]
      ensures chatId !in old(userSessions) || (data != "regenerate_flyer" && data != "done_flyer") ==>
        State() == old(State()) && outbox == old(outbox)
    {
      if chatId !in userSessions {
        return;
      }
      if data == "regenerate_flyer" {
        userSessions := userSessions[chatId := userSessions[chatId].(step := 8)];
        outbox := outbox + [Outgoing(chatId, EditMenu)];
      } else if data == "done_flyer" {
        userSessions := userSessions - {chatId};
        outbox := outbox + [Outgoing(chatId, FlyerComplete)];
      }
    }

    /** One button press, through the three callback listeners in registration order. */
    method HandleCallback(chatId: ChatId, userId: ChatId, data: string)
      requires Valid()
      modifies this
      ensures Valid()
      ensures SameExcept(old(State()), State(), chatId)
      // Without the joined flag, "create" changes nothing.
      ensures data == "create" && chatId !in old(joinedWhatsApp) ==> State() == old(State())
      // Cancel clears everything, and a flyer button finds no session afterwards.
      ensures data == "cancel" ==> State() == Cancelled(old(State()), chatId)
    {
      ghost var s0 := State();
      if data == "cancel" || data == "create" {
        assert data[..5][0] != 'a';
      }
      OnMainCallback(chatId, userId, data);
      OnAdminCallback(chatId, userId, data);
      ghost var s1 := State();
      OnFlyerCallback(chatId, data);
      SameExceptTransitive(s0, s1, State(), chatId);
    }

    /** The sweeper (index.js:764), with the clock as a parameter. Every chat whose
        last message is more than ten minutes old leaves the four object stores and
        gets one expiry notice; `notified` is the order the notices went out in.
        Its `waitingForContactMessage.delete` is given the string key of a `for..in`
        loop while the Set holds numbers, so the contact set is not touched. */
    method Tick(now: int) returns (notified: seq<ChatId>)
      requires Valid()
      modifies this
      ensures Valid()
      ensures State() == Forget(old(State()), Expired(old(sessionTimeout), now))
      ensures forall c :: c in notified <==> c in Expired(old(sessionTimeout), now)
      ensures NoDuplicates(notified)
      ensures outbox == old(outbox) + ExpiryNotices(notified)
    {
      ghost var gone := Expired(sessionTimeout, now);
      ghost var done: set<ChatId> := {};
      var removed: set<ChatId> := {};
      var pending := sessionTimeout.Keys;
      notified := [];
      while pending != {}
        invariant pending == sessionTimeout.Keys - done
        invariant removed == gone * done
        invariant forall c :: c in notified <==> c in removed
        invariant NoDuplicates(notified)
        modifies {}
        decreases pending
      {
        var c := PickChat(pending);
        pending := pending - {c};
        done := done + {c};
        if now - sessionTimeout[c] > SessionExpiry {
          removed := removed + {c};
          notified := notified + [c];
        }
      }
      assert removed == gone;
      userStates := userStates - removed;
      siteSessions := siteSessions - removed;
      userSessions := userSessions - removed;
      sessionTimeout := sessionTimeout - removed;
      outbox := outbox + ExpiryNotices(notified);
    }
  }
}
