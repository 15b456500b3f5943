/**
  The command handlers of bot.js: `/start`, `/create <template>`, `/wallet`,
  `/mywebsites`, `/dailybonus`, `/transactions` and `/admin`. Replies are kept
  as an outbox of abstract reply kinds; the database is the one of firebase.js.
*/
module BotCommands {
  import opened Wrappers
  import opened Text
  import Catalog
  import opened WalletStore
  import FileTypes

  type ChatId = int

  /** `ADMIN_ID`, a string. */
  const AdminId: string := "7782756234"

  /** The six templates `/create` accepts. */
  const Allowed: seq<string> := ["business", "paradigm", "spectral", "ethereal", "passion", "story"]

  // ---------------------------------------------------------------------------
  // The `/\/create (.+)/` pattern

  /** The characters `.` does not match in a JavaScript regular expression. */
  predicate IsLineTerminator(c: char) {
    c == '\n' || c == '\r' || c == '\U{2028}' || c == '\U{2029}'
  }

  /** Length of the run of characters `.` matches from position `i` on. */
  function RunLength(s: string, i: nat): (k: nat)
    requires i <= |s|
    ensures i + k <= |s|
    ensures forall j :: i <= j < i + k ==> !IsLineTerminator(s[j])
    ensures i + k < |s| ==> IsLineTerminator(s[i + k])
    decreases |s| - i
  {
    if i == |s| || IsLineTerminator(s[i]) then 0 else 1 + RunLength(s, i + 1)
  }

  /** The pattern can match at `i`: "/create " there, and at least one character
      for `(.+)` after it. */
  predicate MatchesAt(s: string, i: nat) {
    i + 8 < |s| && s[i..i + 8] == "/create " && !IsLineTerminator(s[i + 8])
  }

  /** The leftmost position from `from` on where the pattern matches. */
  function FindCreate(s: string, from: nat): (r: Option<nat>)
    ensures r.Some? ==> from <= r.value && MatchesAt(s, r.value)
    ensures r.Some? ==> forall j :: from <= j < r.value ==> !MatchesAt(s, j)
    ensures r.None? ==> forall j :: from <= j ==> !MatchesAt(s, j)
    decreases |s| - from
  {
    if from + 8 >= |s| then None
    else if MatchesAt(s, from) then Some(from)
    else FindCreate(s, from + 1)
  }

  /** `match[1]`: the capture of the leftmost match, which `(.+)` makes run to
      the end of its line. */
  function CreateCapture(s: string): (c: Option<string>)
    ensures c.None? <==> forall j :: 0 <= j ==> !MatchesAt(s, j)
    ensures c.Some? ==> c.value != [] && forall k :: 0 <= k < |c.value| ==> !IsLineTerminator(c.value[k])
  {
    match FindCreate(s, 0)
    case None => None
    case Some(i) => Some(s[i + 8..i + 8 + RunLength(s, i + 8)])
  }

  /** A one-line `/create` command captures everything after the command word. */
  lemma CaptureOfCommand(name: string)
    requires name != [] && forall k :: 0 <= k < |name| ==> !IsLineTerminator(name[k])
    ensures CreateCapture("/create " + name) == Some(name)
  {
    var s := "/create " + name;
    assert s[0..8] == "/create ";
    assert MatchesAt(s, 0);
    forall j | 8 <= j < |s| ensures !IsLineTerminator(s[j]) {
      assert s[j] == name[j - 8];
    }
    assert RunLength(s, 8) == |name|;
    assert FindCreate(s, 0) == Some(0);
    assert s[8..8 + |name|] == name;
  }

  lemma AllowedNamesArePlain()
    ensures forall t :: t in Allowed ==> Catalog.IsPlainName(t)
  {
  }

  /** `/create` accepts an allowed name whatever its case and padding. */
  lemma CreateAcceptsAnyCaseAndPadding(t: string, u: string, pre: string, post: string)
    requires t in Allowed
    requires Lower(u) == t
    requires forall i :: 0 <= i < |pre| ==> IsJsSpace(pre[i])
    requires forall i :: 0 <= i < |post| ==> IsJsSpace(post[i])
    ensures Catalog.NormalizeChoice(pre + u + post) == t
    ensures Catalog.Includes(Allowed, Catalog.NormalizeChoice(pre + u + post))
  {
    AllowedNamesArePlain();
    Catalog.NormalizePadded(t, u, pre, post);
    Catalog.IncludesIsMembership(Allowed, t);
  }

  // ---------------------------------------------------------------------------
  // Rendering of database values in a template literal

  /** `${v}` for a stored value. */
  function Render(v: Value): (r: string)
    ensures v.Str? ==> r == v.s
    ensures v.Num? ==> r == DecimalString(v.n)
  {
    match v
    case Num(n) => DecimalString(n)
    case Str(s) => s
    case Flag(b) => if b then "true" else "false"
    case Tree(_) => "[object Object]"
  }

  /** `v[name]`: the child stored under `name`, if `v` is an object holding one. */
  function Field(v: Value, name: string): (r: Option<Value>)
    ensures r.Some? ==> v.Tree? && exists i :: 0 <= i < |v.children| && v.children[i] == (name, r.value)
    ensures r.None? ==> !v.Tree? || forall i :: 0 <= i < |v.children| ==> v.children[i].0 != name
  {
    if v.Tree? then
      FileTypes.GetFindsFirst(v.children, name);
      FileTypes.Get(v.children, name)
    else None
  }

  /** `${v.name}`: "undefined" when there is no such child. */
  function FieldText(v: Value, name: string): (r: string)
    ensures Field(v, name).None? ==> r == "undefined"
    ensures Field(v, name).Some? ==> r == Render(Field(v, name).value)
  {
    match Field(v, name)
    case None => "undefined"
    case Some(c) => Render(c)
  }

  /** One `- template: url` line of `/mywebsites`, as its two rendered parts. */
  function SiteLine(site: Value): (string, string) {
    (FieldText(site, "template"), FieldText(site, "url"))
  }

  /** One `- type: amount on date` line of `/transactions`; the date is kept as
      the stored time. */
  datatype TxLine = TxLine(kind: string, amount: string, time: Option<Value>)

  function TransactionLine(tx: Value): TxLine {
    TxLine(FieldText(tx, "type"), FieldText(tx, "amount"), Field(tx, "time"))
  }

  /** Authorisation of `/admin`: the sender's id as a string equals `ADMIN_ID`. */
  predicate IsAdmin(fromId: int) {
    DecimalString(fromId) == AdminId
  }

  /** One more digit of a decimal rendering: `Digits(n)` is the rendering of
      `n / 10` followed by the character of `n % 10`. */
  lemma DigitsStep(n: nat, d: nat, prefix: string, c: char)
    requires d < 10 && n % 10 == d && DigitChar(d) == c
    requires n < 10 ==> prefix == [] && n == d
    requires n >= 10 ==> Digits(n / 10) == prefix
    ensures Digits(n) == prefix + [c]
  {
  }

  /** Exactly one Telegram user passes the `/admin` check. */
  lemma AdminIsOneUser(fromId: int)
    ensures IsAdmin(fromId) <==> fromId == 7782756234
  {
    DigitsStep(7, 7, [], '7');
    DigitsStep(77, 7, "7", '7');
    DigitsStep(778, 8, "77", '8');
    DigitsStep(7782, 2, "778", '2');
    DigitsStep(77827, 7, "7782", '7');
    DigitsStep(778275, 5, "77827", '5');
    DigitsStep(7782756, 6, "778275", '6');
    DigitsStep(77827562, 2, "7782756", '2');
    DigitsStep(778275623, 3, "77827562", '3');
    DigitsStep(7782756234, 4, "778275623", '4');
    DecimalStringInjective(fromId, 7782756234);
  }

  // ---------------------------------------------------------------------------
  // The bot

  /** What `/create` remembers: `{step: 'title', data: {template}}`. */
  datatype CreateSession = CreateSession(step: string, template: string)

  datatype Reply =
    | Welcome
    | InvalidTemplate
    | Creating(template: string)
    | WalletBalance(balance: Value)
    | NoWebsites
    | WebsiteList(sites: seq<(string, string)>)
    | BonusClaimed(newBalance: int)
    | BonusAlreadyClaimed
    | NoHistory
    | History(transactions: seq<TxLine>)
    | NotAuthorized
    | AdminPanel

  datatype Outgoing = Outgoing(to: int, reply: Reply)

  class CommandBot {
    var userSessions: map<ChatId, CreateSession>
    var outbox: seq<Outgoing>

    constructor()
      ensures userSessions == map[] && outbox == []
    {
      userSessions := map[];
      outbox := [];
    }

    /** `/start`: registers the user, then sends the welcome picture. The
        registration call throws when the database module lacks it, and then
        nothing is sent. */
    method Start(userId: int, registered: bool)
      modifies this
      ensures userSessions == old(userSessions)
      ensures outbox == old(outbox) + (if registered then [Outgoing(userId, Welcome)] else [])
    {
      if registered {
        outbox := outbox + [Outgoing(userId, Welcome)];
      }
    }

    /** `/create <template>`: a name outside the six allowed ones is refused and
        the sessions are untouched; an allowed one replaces whatever session the
        chat had by a fresh one at the title step. */
    method Create(chatId: ChatId, text: string)
      modifies this
      ensures CreateCapture(text).None? ==> userSessions == old(userSessions) && outbox == old(outbox)
      ensures CreateCapture(text).Some? && !Catalog.Includes(Allowed, Catalog.NormalizeChoice(CreateCapture(text).value)) ==>
                userSessions == old(userSessions) && outbox == old(outbox) + [Outgoing(chatId, InvalidTemplate)]
      ensures CreateCapture(text).Some? && Catalog.Includes(Allowed, Catalog.NormalizeChoice(CreateCapture(text).value)) ==>
                var t := Catalog.NormalizeChoice(CreateCapture(text).value);
                && userSessions == old(userSessions)[chatId := CreateSession("title", t)]
                && outbox == old(outbox) + [Outgoing(chatId, Creating(t))]
    {
      var capture := CreateCapture(text);
      if capture.None? {
        return;
      }
      var template := Catalog.NormalizeChoice(capture.value);
      if !Catalog.Includes(Allowed, template) {
        outbox := outbox + [Outgoing(chatId, InvalidTemplate)];
        return;
      }
      userSessions := userSessions[chatId := CreateSession("title", template)];
      outbox := outbox + [Outgoing(chatId, Creating(template))];
    }

    /** `/wallet`: the balance stored for the chat, read with the `|| 0` default. */
    method ShowWallet(chatId: ChatId, db: Database)
      modifies this
      ensures userSessions == old(userSessions)
      ensures outbox == old(outbox) + [Outgoing(chatId, WalletBalance(Wallet(db.store, DecimalString(chatId))))]
    {
      var balance := db.GetWallet(DecimalString(chatId));
      outbox := outbox + [Outgoing(chatId, WalletBalance(balance))];
    }

    /** `/mywebsites`: "no websites" for an empty record, otherwise one line per
        stored site in key order. */
    method MyWebsites(chatId: ChatId, db: Database)
      requires db.Valid()
      modifies this
      ensures userSessions == old(userSessions)
      ensures Sites(db.store, DecimalString(chatId)) == [] ==> outbox == old(outbox) + [Outgoing(chatId, NoWebsites)]
      ensures var entries := Sites(db.store, DecimalString(chatId));
        entries != [] ==>
          && |outbox| == |old(outbox)| + 1 && outbox[..|old(outbox)|] == old(outbox)
          && outbox[|old(outbox)|].to == chatId && outbox[|old(outbox)|].reply.WebsiteList?
          && var lines := outbox[|old(outbox)|].reply.sites;
             |lines| == |entries| && forall i :: 0 <= i < |entries| ==> lines[i] == SiteLine(entries[i].1)
    {
      var sites := db.GetUserWebsites(DecimalString(chatId));
      var entries := sites.children;
      if |entries| == 0 {
        outbox := outbox + [Outgoing(chatId, NoWebsites)];
        return;
      }
      var lines: seq<(string, string)> := [];
      var k := 0;
      while k < |entries|
        invariant 0 <= k <= |entries|
        invariant |lines| == k
        invariant forall i :: 0 <= i < k ==> lines[i] == SiteLine(entries[i].1)
      {
        lines := lines + [(FieldText(entries[k].1, "template"), FieldText(entries[k].1, "url"))];
        k := k + 1;
      }
      outbox := outbox + [Outgoing(chatId, WebsiteList(lines))];
    }

    /** `/dailybonus`: any exception from the bonus call becomes the "already
        claimed" reply. */
    method DailyBonus(fromId: int, outcome: Result<int, string>)
      modifies this
      ensures userSessions == old(userSessions)
      ensures outcome.Success? ==> outbox == old(outbox) + [Outgoing(fromId, BonusClaimed(outcome.value))]
      ensures outcome.Failure? ==> outbox == old(outbox) + [Outgoing(fromId, BonusAlreadyClaimed)]
    {
      match outcome
      case Success(balance) =>
        outbox := outbox + [Outgoing(fromId, BonusClaimed(balance))];
      case Failure(_) =>
        outbox := outbox + [Outgoing(fromId, BonusAlreadyClaimed)];
    }

    /** `/transactions`: `history` is what the history call returned, `None` when
        it threw (the rejection is not caught, so nothing is sent). */
    method Transactions(fromId: int, history: Option<seq<(string, Value)>>)
      modifies this
      ensures userSessions == old(userSessions)
      ensures history.None? ==> outbox == old(outbox)
      ensures history == Some([]) ==> outbox == old(outbox) + [Outgoing(fromId, NoHistory)]
      ensures history.Some? && history.value != [] ==>
          && |outbox| == |old(outbox)| + 1 && outbox[..|old(outbox)|] == old(outbox)
          && outbox[|old(outbox)|] == Outgoing(fromId, outbox[|old(outbox)|].reply)
          && outbox[|old(outbox)|].reply.History?
          && var txs := outbox[|old(outbox)|].reply.transactions;
             |txs| == |history.value| && forall i :: 0 <= i < |txs| ==> txs[i] == TransactionLine(history.value[i].1)
    {
      if history.None? {
        return;
      }
      var entries := history.value;
      if |entries| == 0 {
        outbox := outbox + [Outgoing(fromId, NoHistory)];
        return;
      }
      var txs: seq<TxLine> := [];
      var k := 0;
      while k < |entries|
        invariant 0 <= k <= |entries|
        invariant |txs| == k
        invariant forall i :: 0 <= i < k ==> txs[i] == TransactionLine(entries[i].1)
      {
        var tx := entries[k].1;
        txs := txs + [TxLine(FieldText(tx, "type"), FieldText(tx, "amount"), Field(tx, "time"))];
        k := k + 1;
      }
      outbox := outbox + [Outgoing(fromId, History(txs))];
    }

    /** `/admin`: "Not authorized" unless the sender is the administrator. */
    method Admin(chatId: ChatId, fromId: int)
      modifies this
      ensures userSessions == old(userSessions)
      ensures outbox == old(outbox) + [Outgoing(chatId, if fromId == 7782756234 then AdminPanel else NotAuthorized)]
    {
      AdminIsOneUser(fromId);
      if DecimalString(fromId) != AdminId {
        outbox := outbox + [Outgoing(chatId, NotAuthorized)];
        return;
      }
      outbox := outbox + [Outgoing(chatId, AdminPanel)];
    }
  }
}
