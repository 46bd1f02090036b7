/**
  The two-way mapping between flat `connections` tables and the older configuration sections for app
  connectors, channel connectors, mail accounts and calendar accounts.

  Order matters in two places: the accounts are lists, and the connection tables are a dictionary
  that keeps the order of insertion. Both are modelled as sequences.
 */
module Connections {
  import opened TextTools
  import T = TomlValue

  datatype Option<T> = None | Some(value: T)

  /** A value of a section; what is neither a scalar nor a list of them is opaque. */
  datatype Atom = Null | Bool(b: bool) | Int(n: int, text: string) | Str(s: string) | Opaque(text: string, truth: bool)
  datatype Val = One(atom: Atom) | Many(items: seq<Atom>)

  datatype Key =
    | Kind | Provider | Enabled
    | AllowActions | AuthMode | AuthType | DefaultRepo | ClientIdRef | ClientSecretRef | TokenRef
    | AccessTokenRef | RefreshTokenRef | ConsumerKeyRef | ConsumerSecretRef | OauthClientIdRef
    | OauthClientSecretRef | BearerTokenRef | SiteUrl | EmailAddress | CloudId | WorkspaceName | UserAgent
    | DefaultSubreddit | StreamEnabled | CalendarSyncEnabled | Scopes | StreamRules
    | Workspace | Agent | BotToken | AppId | AppSecret | AppToken | ClientId | ClientSecret | CorpId
    | CorpSecret | VerificationToken | VerificationTokenValue | AccountSid | AuthToken | FromNumber
    | SigningSecret | EncryptKey | Token | RenderMode | Stream | RequireMention | AgentId | Allowlist
    | GroupAllowlist | GuildAllowlist | GroupPolicy
    | Label | Username | Password | ImapHost | ImapPort | SmtpHost | SmtpPort | Mailbox | UseSsl | UseTls
    | Url | CalendarName | SyncIntervalMinutes | Timezone
    | Unlisted(name: string)

  type Fields = map<Key, Val>

  /** A table, or something else where a table was expected. */
  datatype Raw = Dict(fields: Fields) | Other

  datatype Service =
    | Github | GoogleWorkspace | Notion | Jira | Reddit | X
    | Telegram | Feishu | Discord | Slack | Dingtalk | Wecom | Whatsapp
    | Mail | Calendar
    | Unknown(name: string)

  function Name(p: Service): string {
    match p
    case Github => "github" case GoogleWorkspace => "google_workspace" case Notion => "notion"
    case Jira => "jira" case Reddit => "reddit" case X => "x"
    case Telegram => "telegram" case Feishu => "feishu" case Discord => "discord" case Slack => "slack"
    case Dingtalk => "dingtalk" case Wecom => "wecom" case Whatsapp => "whatsapp"
    case Mail => "email" case Calendar => "calendar"
    case Unknown(n) => n
  }

  function Named(s: string): Service {
    if s == "github" then Github else if s == "google_workspace" then GoogleWorkspace
    else if s == "notion" then Notion else if s == "jira" then Jira else if s == "reddit" then Reddit
    else if s == "x" then X else if s == "telegram" then Telegram else if s == "feishu" then Feishu
    else if s == "discord" then Discord else if s == "slack" then Slack else if s == "dingtalk" then Dingtalk
    else if s == "wecom" then Wecom else if s == "whatsapp" then Whatsapp
    else if s == "email" then Mail else if s == "calendar" then Calendar
    else Unknown(s)
  }

  predicate IsApp(p: Service) {
    p.Github? || p.GoogleWorkspace? || p.Notion? || p.Jira? || p.Reddit? || p.X?
  }

  predicate IsChannel(p: Service) {
    p.Telegram? || p.Feishu? || p.Discord? || p.Slack? || p.Dingtalk? || p.Wecom? || p.Whatsapp?
  }

  lemma NamesRead(p: Service)
    requires !p.Unknown?
    ensures Strip(Name(p)) == Name(p) && Named(Name(p)) == p
  {
  }

  // ------------------------------------------------------------------ values

  predicate Truthy(v: Val) {
    match v
    case Many(items) => items != []
    case One(Null) => false
    case One(Bool(b)) => b
    case One(Int(n, _)) => n != 0
    case One(Str(s)) => s != ""
    case One(Opaque(_, truth)) => truth
  }

  /** `_clean_scalar` */
  function Clean(v: Val): Val {
    if v.One? && v.atom.Str? then One(Str(Strip(v.atom.s))) else v
  }

  /** `_clean_entry` */
  function CleanAll(m: Fields): Fields {
    map k | k in m :: Clean(m[k])
  }

  function Shown(a: Atom): string {
    match a
    case Null => "None"
    case Bool(b) => if b then "True" else "False"
    case Int(_, t) => t
    case Str(s) => s
    case Opaque(t, _) => t
  }

  function Get(m: Fields, k: Key, default: Val): Val {
    if k in m then m[k] else default
  }

  const FALSE := One(Bool(false))
  const TRUE := One(Bool(true))
  const EMPTY := One(Str(""))
  const NULL := One(Null)

  function Flag(m: Fields, k: Key, default: Val): Val {
    One(Bool(Truthy(Get(m, k, default))))
  }

  /** The non-blank texts of a list, trimmed. */
  function Trimmed(items: seq<Atom>): seq<Atom> {
    if items == [] then []
    else (if Strip(Shown(items[0])) != "" then [Str(Strip(Shown(items[0])))] else []) + Trimmed(items[1..])
  }

  // ------------------------------------------------------------------ app and channel sections

  predicate AppText(k: Key) {
    || k.AuthMode? || k.AuthType? || k.DefaultRepo? || k.ClientIdRef? || k.ClientSecretRef? || k.TokenRef?
    || k.AccessTokenRef? || k.RefreshTokenRef? || k.ConsumerKeyRef? || k.ConsumerSecretRef? || k.OauthClientIdRef?
    || k.OauthClientSecretRef? || k.BearerTokenRef? || k.SiteUrl? || k.EmailAddress? || k.CloudId?
    || k.WorkspaceName? || k.UserAgent? || k.DefaultSubreddit?
  }

  predicate AppSwitch(k: Key) {
    k.StreamEnabled? || k.CalendarSyncEnabled?
  }

  predicate AppList(k: Key) {
    k.Scopes? || k.StreamRules?
  }

  predicate ChannelText(k: Key) {
    || k.Workspace? || k.Agent? || k.BotToken? || k.AppId? || k.AppSecret? || k.AppToken? || k.ClientId?
    || k.ClientSecret? || k.CorpId? || k.CorpSecret? || k.VerificationToken? || k.VerificationTokenValue?
    || k.AccountSid? || k.AuthToken? || k.FromNumber? || k.SigningSecret? || k.EncryptKey? || k.Token?
    || k.RenderMode? || k.GroupPolicy?
  }

  predicate ChannelAny(k: Key) {
    k.Stream? || k.RequireMention? || k.AgentId?
  }

  predicate ChannelList(k: Key) {
    k.Allowlist? || k.GroupAllowlist? || k.GuildAllowlist?
  }

  /** What an app section contributes under a key, besides its two main switches. */
  function AppPick(k: Key, v: Val): Option<Val> {
    if AppText(k) then (if v != EMPTY then Some(v) else None)
    else if AppSwitch(k) then Some(One(Bool(Truthy(v))))
    else if AppList(k) && v.Many? then Some(v)
    else None
  }

  function ChannelPick(k: Key, v: Val): Option<Val> {
    if ChannelText(k) then (if v != EMPTY then Some(v) else None)
    else if ChannelAny(k) || (ChannelList(k) && v.Many?) then Some(v)
    else None
  }

  function AppFields(m: Fields): Fields {
    (map k | k in m && AppPick(k, m[k]).Some? :: AppPick(k, m[k]).value)
    [Enabled := Flag(m, Enabled, FALSE)][AllowActions := Flag(m, AllowActions, FALSE)]
  }

  function ChannelFields(m: Fields): Fields {
    (map k | k in m && ChannelPick(k, m[k]).Some? :: ChannelPick(k, m[k]).value)[Enabled := Flag(m, Enabled, FALSE)]
  }

  /** `_flat_connection_entry` */
  function FlatEntry(kind: string, p: Service, fields: Fields): Fields {
    (map k | k in fields && fields[k] != NULL :: fields[k])[Kind := One(Str(kind))][Provider := One(Str(Name(p)))]
  }

  /** The section of an app connection; scopes are trimmed on this side only. */
  function AppSection(entry: Fields): Fields {
    var app := AppFields(entry);
    if Scopes in app then app[Scopes := Many(Trimmed(app[Scopes].items))] else app
  }

  // ------------------------------------------------------------------ accounts

  const MAIL_KEYS: set<Key> :=
    {Label, Username, Password, ImapHost, ImapPort, SmtpHost, SmtpPort, Mailbox, UseSsl, UseTls, Enabled}
  const CALENDAR_KEYS: set<Key> :=
    {Label, Enabled, Url, Username, Password, CalendarName, SyncIntervalMinutes, Timezone}

  function DefaultOf(k: Key): Val {
    match k
    case ImapPort => One(Int(993, "993"))
    case SmtpPort => One(Int(587, "587"))
    case Mailbox => One(Str("INBOX"))
    case SyncIntervalMinutes => One(Int(30, "30"))
    case Enabled => FALSE
    case UseSsl => TRUE
    case UseTls => TRUE
    case _ => EMPTY
  }

  predicate AccountSwitch(k: Key) {
    k.Enabled? || k.UseSsl? || k.UseTls?
  }

  function AccountField(m: Fields, k: Key): Val {
    if AccountSwitch(k) then Flag(m, k, DefaultOf(k)) else Get(m, k, DefaultOf(k))
  }

  function AccountFields(m: Fields, keys: set<Key>): Fields {
    map k | k in keys :: AccountField(m, k)
  }

  function AccountSection(entry: Fields, keys: set<Key>): Fields {
    map k | k in entry && k in keys :: entry[k]
  }

  // ------------------------------------------------------------------ the normal form

  /** A text that is not null and not blank stays, trimmed; switches become truth values; lists stay,
      scopes as their trimmed texts; the rest is dropped. */
  function NormalAppValue(k: Key, v: Val): Option<Val> {
    if AppSwitch(k) then Some(One(Bool(Truthy(v))))
    else if k.Scopes? && v.Many? then Some(Many(Trimmed(v.items)))
    else if (AppText(k) && v != NULL && Clean(v) != EMPTY) || (AppList(k) && v.Many?) then Some(Clean(v))
    else None
  }

  function NormalChannelValue(k: Key, v: Val): Option<Val> {
    if (ChannelText(k) && v != NULL && Clean(v) != EMPTY) || (ChannelAny(k) && v != NULL) || (ChannelList(k) && v.Many?)
    then Some(Clean(v)) else None
  }

  /** The main switches are filled in. */
  function NormalApp(m: Fields): Fields {
    (map k | k in m && NormalAppValue(k, m[k]).Some? :: NormalAppValue(k, m[k]).value)
    [Enabled := Flag(m, Enabled, FALSE)][AllowActions := Flag(m, AllowActions, FALSE)]
  }

  function NormalChannel(m: Fields): Fields {
    (map k | k in m && NormalChannelValue(k, m[k]).Some? :: NormalChannelValue(k, m[k]).value)
    [Enabled := Flag(m, Enabled, FALSE)]
  }

  /** The normal form of an account: defaults filled in, nulls and unlisted fields dropped. */
  function NormalAccount(m: Fields, keys: set<Key>): Fields {
    map k | k in keys && AccountField(m, k) != NULL :: Clean(AccountField(m, k))
  }

  function At(m: Fields, k: Key): Option<Val> {
    if k in m then Some(m[k]) else None
  }

  /** One key of a cleaned entry. */
  lemma EntryAt(kind: string, p: Service, f: Fields, k: Key)
    requires k != Kind && k != Provider
    ensures At(CleanAll(FlatEntry(kind, p, f)), k) ==
            if k in f && f[k] != NULL then Some(Clean(f[k])) else None
  {
  }

  lemma AppFieldsAt(m: Fields, k: Key)
    requires k != Enabled && k != AllowActions
    ensures At(AppFields(m), k) == if k in m then AppPick(k, m[k]) else None
  {
  }

  lemma AppSectionAt(e: Fields, k: Key)
    requires k != Enabled && k != AllowActions
    ensures At(AppSection(e), k) ==
            match At(AppFields(e), k)
            case None => None
            case Some(w) => Some(if k.Scopes? then Many(if w.Many? then Trimmed(w.items) else []) else w)
  {
    AppFieldsAt(e, Scopes);
  }

  lemma NormalAppAt(m: Fields, k: Key)
    requires k != Enabled && k != AllowActions
    ensures At(NormalApp(m), k) == if k in m then NormalAppValue(k, m[k]) else None
  {
  }

  lemma ChannelFieldsAt(m: Fields, k: Key)
    requires k != Enabled
    ensures At(ChannelFields(m), k) == if k in m then ChannelPick(k, m[k]) else None
  {
  }

  lemma NormalChannelAt(m: Fields, k: Key)
    requires k != Enabled
    ensures At(NormalChannel(m), k) == if k in m then NormalChannelValue(k, m[k]) else None
  {
  }

  lemma NoNames(m: Fields, k: Key)
    requires k == Kind || k == Provider
    ensures At(AppFields(m), k) == None && At(ChannelFields(m), k) == None
    ensures At(NormalApp(m), k) == None && At(NormalChannel(m), k) == None
  {
  }

  /** One value there and back; `None` where it is dropped on the way. */
  lemma AppValueRoundTrip(k: Key, v: Val)
    ensures var there := AppPick(k, v);
            if there.None? || there.value == NULL then NormalAppValue(k, v).None?
            else
              var back := AppPick(k, Clean(there.value));
              (back.Some? <==> NormalAppValue(k, v).Some?)
              && (back.Some? && k.Scopes? ==>
                    back.value.Many? && NormalAppValue(k, v).value == Many(Trimmed(back.value.items)))
              && (back.Some? && !k.Scopes? ==> NormalAppValue(k, v).value == back.value)
  {
  }

  lemma ChannelValueRoundTrip(k: Key, v: Val)
    ensures var there := ChannelPick(k, v);
            if there.None? || there.value == NULL then NormalChannelValue(k, v).None?
            else ChannelPick(k, Clean(there.value)) == NormalChannelValue(k, v)
  {
  }

  lemma MainSwitches(m: Fields, p: Service)
    ensures var e := CleanAll(FlatEntry("app", p, AppFields(m)));
            Flag(e, Enabled, FALSE) == Flag(m, Enabled, FALSE) && Flag(e, AllowActions, FALSE) == Flag(m, AllowActions, FALSE)
    ensures var e := CleanAll(FlatEntry("channel", p, ChannelFields(m)));
            Flag(e, Enabled, FALSE) == Flag(m, Enabled, FALSE)
  {
  }

  lemma AppAt(m: Fields, p: Service, k: Key)
    requires k != Enabled && k != AllowActions
    ensures At(AppSection(CleanAll(FlatEntry("app", p, AppFields(m)))), k) == At(NormalApp(m), k)
  {
    var f := AppFields(m);
    var e := CleanAll(FlatEntry("app", p, f));
    AppSectionAt(e, k);
    if k == Kind || k == Provider {
      NoNames(m, k);
      NoNames(e, k);
    } else {
      AppFieldsAt(m, k);
      AppFieldsAt(e, k);
      EntryAt("app", p, f, k);
      NormalAppAt(m, k);
      if k in m {
        AppValueRoundTrip(k, m[k]);
      }
    }
  }

  lemma AppRoundTrip(m: Fields, p: Service)
    ensures AppSection(CleanAll(FlatEntry("app", p, AppFields(m)))) == NormalApp(m)
  {
    var a, n := AppSection(CleanAll(FlatEntry("app", p, AppFields(m)))), NormalApp(m);
    MainSwitches(m, p);
    forall k ensures (k in a <==> k in n) && (k in a ==> a[k] == n[k]) {
      if k != Enabled && k != AllowActions {
        AppAt(m, p, k);
      }
    }
  }

  lemma ChannelAt(m: Fields, p: Service, k: Key)
    requires k != Enabled
    ensures At(ChannelFields(CleanAll(FlatEntry("channel", p, ChannelFields(m)))), k) == At(NormalChannel(m), k)
  {
    var f := ChannelFields(m);
    var e := CleanAll(FlatEntry("channel", p, f));
    if k == Kind || k == Provider {
      NoNames(m, k);
      NoNames(e, k);
    } else {
      ChannelFieldsAt(m, k);
      ChannelFieldsAt(e, k);
      EntryAt("channel", p, f, k);
      NormalChannelAt(m, k);
      if k in m {
        ChannelValueRoundTrip(k, m[k]);
      }
    }
  }

  lemma ChannelRoundTrip(m: Fields, p: Service)
    ensures ChannelFields(CleanAll(FlatEntry("channel", p, ChannelFields(m)))) == NormalChannel(m)
  {
    var a, n := ChannelFields(CleanAll(FlatEntry("channel", p, ChannelFields(m)))), NormalChannel(m);
    MainSwitches(m, p);
    forall k ensures (k in a <==> k in n) && (k in a ==> a[k] == n[k]) {
      if k != Enabled {
        ChannelAt(m, p, k);
      }
    }
  }

  lemma AccountRoundTrip(m: Fields, p: Service, keys: set<Key>)
    requires Kind !in keys && Provider !in keys
    ensures AccountSection(CleanAll(FlatEntry("sync_source", p, AccountFields(m, keys))), keys) == NormalAccount(m, keys)
  {
    var e := CleanAll(FlatEntry("sync_source", p, AccountFields(m, keys)));
    forall k | k in keys ensures At(e, k) == if AccountField(m, k) != NULL then Some(Clean(AccountField(m, k))) else None {
      EntryAt("sync_source", p, AccountFields(m, keys), k);
    }
    SameAt(AccountSection(e, keys), NormalAccount(m, keys));
  }

  // ------------------------------------------------------------------ the normal form is a fixpoint

  lemma CleanTwice(v: Val)
    ensures Clean(Clean(v)) == Clean(v)
  {
    if v.One? && v.atom.Str? {
      StripIdempotent(v.atom.s);
    }
  }

  lemma {:induction false} TrimmedTwice(items: seq<Atom>)
    ensures Trimmed(Trimmed(items)) == Trimmed(items)
  {
    if items != [] {
      var first, rest := Strip(Shown(items[0])), Trimmed(items[1..]);
      StripIdempotent(Shown(items[0]));
      TrimmedTwice(items[1..]);
      assert ([Str(first)] + rest)[1..] == rest && [] + rest == rest;
    }
  }

  lemma NormalAppValueTwice(k: Key, v: Val)
    requires NormalAppValue(k, v).Some?
    ensures NormalAppValue(k, NormalAppValue(k, v).value) == NormalAppValue(k, v)
  {
    CleanTwice(v);
    if v.Many? {
      TrimmedTwice(v.items);
    }
  }

  lemma NormalAppTwice(m: Fields)
    ensures NormalApp(NormalApp(m)) == NormalApp(m)
  {
    var n := NormalApp(m);
    forall k ensures At(NormalApp(n), k) == At(n, k) {
      if k != Enabled && k != AllowActions {
        NormalAppAt(m, k);
        NormalAppAt(n, k);
        if k in m && NormalAppValue(k, m[k]).Some? {
          NormalAppValueTwice(k, m[k]);
        }
      }
    }
    SameAt(NormalApp(n), n);
  }

  lemma SameAt(a: Fields, b: Fields)
    requires forall k :: At(a, k) == At(b, k)
    ensures a == b
  {
    forall k ensures (k in a <==> k in b) && (k in a ==> a[k] == b[k]) {
      assert At(a, k) == At(b, k);
    }
  }

  lemma NormalChannelTwice(m: Fields)
    ensures NormalChannel(NormalChannel(m)) == NormalChannel(m)
  {
    var n := NormalChannel(m);
    forall k ensures At(NormalChannel(n), k) == At(n, k) {
      if k != Enabled {
        NormalChannelAt(m, k);
        NormalChannelAt(n, k);
        if k in m {
          CleanTwice(m[k]);
        }
      }
    }
    SameAt(NormalChannel(n), n);
  }

  /** No field of the account that is kept as it is holds a null. */
  predicate WithoutNulls(m: Fields, keys: set<Key>) {
    forall k :: k in keys && k in m && !AccountSwitch(k) ==> m[k] != NULL
  }

  lemma DefaultIsClean(k: Key)
    ensures DefaultOf(k) != NULL && Clean(DefaultOf(k)) == DefaultOf(k)
  {
  }

  lemma AccountFieldTwice(m: Fields, keys: set<Key>, k: Key)
    requires k in keys
    ensures var n := NormalAccount(m, keys);
            if AccountField(m, k) == NULL then k !in n && AccountField(n, k) != NULL
            else k in n && Clean(AccountField(n, k)) == n[k] && AccountField(n, k) != NULL
  {
    CleanTwice(AccountField(m, k));
    DefaultIsClean(k);
  }

  /** The normal form of an account is a fixpoint exactly when it had no nulls: a null is dropped
      the first time and its default filled in the second. */
  lemma NormalAccountTwice(m: Fields, keys: set<Key>)
    ensures NormalAccount(NormalAccount(m, keys), keys) == NormalAccount(m, keys) <==> WithoutNulls(m, keys)
  {
    var n := NormalAccount(m, keys);
    forall k | k in keys
      ensures (k in NormalAccount(n, keys)) && (k in n ==> NormalAccount(n, keys)[k] == n[k])
      ensures k in n <==> AccountField(m, k) != NULL
    {
      AccountFieldTwice(m, keys, k);
    }
    if WithoutNulls(m, keys) {
      forall k | k in keys ensures AccountField(m, k) != NULL {
        DefaultIsClean(k);
      }
    } else {
      var k :| k in keys && k in m && !AccountSwitch(k) && m[k] == NULL;
      assert AccountField(m, k) == NULL;
      assert k in NormalAccount(n, keys) && k !in n;
    }
  }

  // ------------------------------------------------------------------ whole documents

  /** One connection table; the tables are a dictionary in order of insertion. */
  datatype Conn = Conn(id: string, entry: Raw)

  datatype Legacy = Legacy(apps: map<Service, Raw>, channels: map<Service, Raw>, mails: seq<Raw>, calendars: seq<Raw>)

  /** `str(entry.get(key) or "").strip()`; the text of a list names nothing. */
  function TextAt(e: Fields, k: Key): string {
    if k in e && Truthy(e[k]) then (if e[k].One? then Strip(Shown(e[k].atom)) else "[") else ""
  }

  /** One connection table taken into the legacy sections; a later table of the same app or channel
      wins. */
  function Absorb(l: Legacy, c: Conn): Legacy {
    if c.entry.Other? then l
    else
      var e := CleanAll(c.entry.fields);
      var kind, p := TextAt(e, Kind), Named(TextAt(e, Provider));
      if kind == "app" && IsApp(p) then l.(apps := l.apps[p := Dict(AppSection(e))])
      else if kind == "channel" && IsChannel(p) then l.(channels := l.channels[p := Dict(ChannelFields(e))])
      else if kind == "sync_source" && p.Mail? then l.(mails := l.mails + [Dict(AccountSection(e, MAIL_KEYS))])
      else if kind == "sync_source" && p.Calendar?
      then l.(calendars := l.calendars + [Dict(AccountSection(e, CALENDAR_KEYS))])
      else l
  }

  function ToLegacy(l: Legacy, conns: seq<Conn>): Legacy
    decreases conns
  {
    if conns == [] then l else ToLegacy(Absorb(l, conns[0]), conns[1..])
  }

  const NOTHING := Legacy(map[], map[], [], [])

  predicate SaysKind(m: Fields, kind: string) {
    Kind in m && m[Kind] == One(Str(kind))
  }

  function SaysProvider(m: Fields): Service {
    if Provider in m && m[Provider].One? && m[Provider].atom.Str? then Named(m[Provider].atom.s) else Unknown("")
  }

  /** The first preferred id of each app or channel. */
  function ServiceIds(preferred: seq<Conn>, kind: string): map<Service, string> {
    if preferred == [] then map[]
    else
      var rest, c := ServiceIds(preferred[..|preferred| - 1], kind), preferred[|preferred| - 1];
      if c.entry.Dict? && SaysKind(c.entry.fields, kind)
         && (if kind == "app" then IsApp(SaysProvider(c.entry.fields)) else IsChannel(SaysProvider(c.entry.fields)))
         && SaysProvider(c.entry.fields) !in rest
      then rest[SaysProvider(c.entry.fields) := c.id]
      else rest
  }

  function AccountIds(preferred: seq<Conn>, p: Service): seq<string> {
    if preferred == [] then []
    else
      var rest, c := AccountIds(preferred[..|preferred| - 1], p), preferred[|preferred| - 1];
      if c.entry.Dict? && SaysKind(c.entry.fields, "sync_source") && SaysProvider(c.entry.fields) == p
      then rest + [c.id] else rest
  }

  /** The entries of the apps or channels, in the order in which the host walks its set of names. */
  function ServiceConns(sections: map<Service, Raw>, kind: string, ids: map<Service, string>, order: seq<Service>): seq<Conn> {
    if order == [] then []
    else
      var p := order[0];
      (if p in sections && sections[p].Dict?
       then [Conn(if p in ids then ids[p] else Name(p),
                  Dict(FlatEntry(kind, p, if kind == "app" then AppFields(sections[p].fields)
                                          else ChannelFields(sections[p].fields))))]
       else [])
      + ServiceConns(sections, kind, ids, order[1..])
  }

  function AccountKeys(p: Service): set<Key> {
    if p.Mail? then MAIL_KEYS else CALENDAR_KEYS
  }

  function AccountId(p: Service, ids: seq<string>, i: nat): string {
    if i < |ids| then ids[i] else Name(p) + "_" + T.NatText(i + 1)
  }

  function AccountConns(accounts: seq<Raw>, p: Service, ids: seq<string>, i: nat): seq<Conn>
    requires i <= |accounts|
    decreases |accounts| - i
  {
    if i == |accounts| then []
    else
      (if accounts[i].Dict?
       then [Conn(AccountId(p, ids, i), Dict(FlatEntry("sync_source", p, AccountFields(accounts[i].fields, AccountKeys(p)))))]
       else [])
      + AccountConns(accounts, p, ids, i + 1)
  }

  /** All entries with the ids they are assigned, before ids collide. */
  function Assigned(l: Legacy, preferred: seq<Conn>, apps: seq<Service>, channels: seq<Service>): seq<Conn> {
    ServiceConns(l.apps, "app", ServiceIds(preferred, "app"), apps)
    + ServiceConns(l.channels, "channel", ServiceIds(preferred, "channel"), channels)
    + AccountConns(l.mails, Mail, AccountIds(preferred, Mail), 0)
    + AccountConns(l.calendars, Calendar, AccountIds(preferred, Calendar), 0)
  }

  /** Assignment to a dictionary: an existing id keeps its place. */
  function Put(out: seq<Conn>, c: Conn): seq<Conn> {
    if out == [] then [c]
    else if out[0].id == c.id then [c] + out[1..]
    else [out[0]] + Put(out[1..], c)
  }

  function PutAll(out: seq<Conn>, cs: seq<Conn>): seq<Conn>
    decreases cs
  {
    if cs == [] then out else PutAll(Put(out, cs[0]), cs[1..])
  }

  /** `legacy_to_connections_raw` */
  function ToConnections(l: Legacy, preferred: seq<Conn>, apps: seq<Service>, channels: seq<Service>): seq<Conn> {
    PutAll([], Assigned(l, preferred, apps, channels))
  }

  predicate DistinctIds(cs: seq<Conn>) {
    forall i, j :: 0 <= i < j < |cs| ==> cs[i].id != cs[j].id
  }

  function Dicts(sections: seq<Raw>, keys: set<Key>): seq<Raw> {
    if sections == [] then []
    else (if sections[0].Dict? then [Dict(NormalAccount(sections[0].fields, keys))] else []) + Dicts(sections[1..], keys)
  }

  /** The normal form of a whole legacy configuration. */
  function Normal(l: Legacy): Legacy {
    Legacy(map p | p in l.apps && IsApp(p) && l.apps[p].Dict? :: Dict(NormalApp(l.apps[p].fields)),
           map p | p in l.channels && IsChannel(p) && l.channels[p].Dict? :: Dict(NormalChannel(l.channels[p].fields)),
           Dicts(l.mails, MAIL_KEYS), Dicts(l.calendars, CALENDAR_KEYS))
  }

  // ------------------------------------------------------------------ ids

  lemma {:induction false} PutNew(out: seq<Conn>, c: Conn)
    ensures (forall i :: 0 <= i < |out| ==> out[i].id != c.id) ==> Put(out, c) == out + [c]
    ensures !(forall i :: 0 <= i < |out| ==> out[i].id != c.id) ==> |Put(out, c)| == |out|
  {
    if out != [] {
      PutNew(out[1..], c);
      assert forall i :: 0 <= i < |out| - 1 ==> out[1..][i] == out[i + 1];
      if out[0].id != c.id && forall i :: 0 <= i < |out| ==> out[i].id != c.id {
        assert [out[0]] + (out[1..] + [c]) == out + [c];
      }
    }
  }

  lemma {:induction false} PutAllLength(out: seq<Conn>, cs: seq<Conn>)
    ensures |PutAll(out, cs)| <= |out| + |cs|
    decreases cs
  {
    if cs != [] {
      PutNew(out, cs[0]);
      PutAllLength(Put(out, cs[0]), cs[1..]);
    }
  }

  /** With distinct ids every entry is kept, in order; otherwise the dictionary is shorter. */
  lemma {:induction false} PutAllIff(out: seq<Conn>, cs: seq<Conn>)
    requires DistinctIds(out)
    ensures DistinctIds(out + cs) ==> PutAll(out, cs) == out + cs
    ensures !DistinctIds(out + cs) ==> |PutAll(out, cs)| < |out| + |cs|
    decreases cs
  {
    if cs == [] {
      assert out + cs == out;
    } else {
      PutNew(out, cs[0]);
      if forall i :: 0 <= i < |out| ==> out[i].id != cs[0].id {
        assert DistinctIds(out + [cs[0]]);
        PutAllIff(out + [cs[0]], cs[1..]);
        assert out + [cs[0]] + cs[1..] == out + cs;
      } else {
        var i :| 0 <= i < |out| && out[i].id == cs[0].id;
        assert (out + cs)[i].id == (out + cs)[|out|].id;
        PutAllLength(Put(out, cs[0]), cs[1..]);
      }
    }
  }

  // ------------------------------------------------------------------ counting what arrives

  function Size(l: Legacy): nat {
    |l.apps| + |l.channels| + |l.mails| + |l.calendars|
  }

  lemma UpdateSize<K, V>(m: map<K, V>, k: K, v: V)
    ensures |m[k := v]| == |m| + if k in m then 0 else 1
  {
    assert m[k := v].Keys == m.Keys + {k};
    if k in m {
      assert m[k := v].Keys == m.Keys;
    }
  }

  lemma AbsorbSize(l: Legacy, c: Conn)
    ensures Size(Absorb(l, c)) <= Size(l) + 1
  {
    if c.entry.Dict? {
      var e := CleanAll(c.entry.fields);
      var p := Named(TextAt(e, Provider));
      UpdateSize(l.apps, p, Dict(AppSection(e)));
      UpdateSize(l.channels, p, Dict(ChannelFields(e)));
    }
  }

  lemma {:induction false} ToLegacySize(l: Legacy, conns: seq<Conn>)
    ensures Size(ToLegacy(l, conns)) <= Size(l) + |conns|
    decreases conns
  {
    if conns != [] {
      AbsorbSize(l, conns[0]);
      ToLegacySize(Absorb(l, conns[0]), conns[1..]);
    }
  }

  lemma {:induction false} ToLegacyMore(l: Legacy, a: seq<Conn>, b: seq<Conn>)
    ensures ToLegacy(l, a + b) == ToLegacy(ToLegacy(l, a), b)
    decreases a
  {
    if a == [] {
      assert a + b == b;
    } else {
      assert (a + b)[0] == a[0] && (a + b)[1..] == a[1..] + b;
      ToLegacyMore(Absorb(l, a[0]), a[1..], b);
    }
  }

  // ------------------------------------------------------------------ there and back

  lemma EntrySays(kind: string, p: Service, f: Fields)
    requires !p.Unknown? && kind != "" && Strip(kind) == kind
    ensures var e := CleanAll(FlatEntry(kind, p, f)); TextAt(e, Kind) == kind && Named(TextAt(e, Provider)) == p
  {
    NamesRead(p);
    var e := CleanAll(FlatEntry(kind, p, f));
    assert e[Kind] == One(Str(kind)) && e[Provider] == One(Str(Name(p)));
    assert Name(p) != "";
  }

  lemma KindsAreTrim()
    ensures Strip("app") == "app" && Strip("channel") == "channel" && Strip("sync_source") == "sync_source"
  {
  }

  lemma AppArrives(l: Legacy, p: Service, m: Fields, id: string)
    requires IsApp(p)
    ensures Absorb(l, Conn(id, Dict(FlatEntry("app", p, AppFields(m))))) == l.(apps := l.apps[p := Dict(NormalApp(m))])
  {
    KindsAreTrim();
    EntrySays("app", p, AppFields(m));
    AppRoundTrip(m, p);
  }

  lemma ChannelArrives(l: Legacy, p: Service, m: Fields, id: string)
    requires IsChannel(p)
    ensures Absorb(l, Conn(id, Dict(FlatEntry("channel", p, ChannelFields(m)))))
         == l.(channels := l.channels[p := Dict(NormalChannel(m))])
  {
    KindsAreTrim();
    EntrySays("channel", p, ChannelFields(m));
    ChannelRoundTrip(m, p);
  }

  lemma KeysAreFields()
    ensures Kind !in MAIL_KEYS && Provider !in MAIL_KEYS && Kind !in CALENDAR_KEYS && Provider !in CALENDAR_KEYS
  {
  }

  lemma MailArrives(l: Legacy, m: Fields, id: string)
    ensures Absorb(l, Conn(id, Dict(FlatEntry("sync_source", Mail, AccountFields(m, MAIL_KEYS)))))
         == l.(mails := l.mails + [Dict(NormalAccount(m, MAIL_KEYS))])
  {
    KindsAreTrim();
    KeysAreFields();
    EntrySays("sync_source", Mail, AccountFields(m, MAIL_KEYS));
    AccountRoundTrip(m, Mail, MAIL_KEYS);
  }

  lemma CalendarArrives(l: Legacy, m: Fields, id: string)
    ensures Absorb(l, Conn(id, Dict(FlatEntry("sync_source", Calendar, AccountFields(m, CALENDAR_KEYS)))))
         == l.(calendars := l.calendars + [Dict(NormalAccount(m, CALENDAR_KEYS))])
  {
    KindsAreTrim();
    KeysAreFields();
    EntrySays("sync_source", Calendar, AccountFields(m, CALENDAR_KEYS));
    AccountRoundTrip(m, Calendar, CALENDAR_KEYS);
  }

  lemma ToLegacyCons(l: Legacy, c: Conn, rest: seq<Conn>)
    ensures ToLegacy(l, [c] + rest) == ToLegacy(Absorb(l, c), rest)
  {
    assert ([c] + rest)[0] == c && ([c] + rest)[1..] == rest;
  }

  predicate DistinctServices(order: seq<Service>) {
    forall i, j :: 0 <= i < j < |order| ==> order[i] != order[j]
  }

  function NormalApps(sections: map<Service, Raw>, order: seq<Service>): map<Service, Raw> {
    map p | p in sections && p in order && sections[p].Dict? :: Dict(NormalApp(sections[p].fields))
  }

  function NormalChannels(sections: map<Service, Raw>, order: seq<Service>): map<Service, Raw> {
    map p | p in sections && p in order && sections[p].Dict? :: Dict(NormalChannel(sections[p].fields))
  }

  lemma ServiceConnsCons(sections: map<Service, Raw>, kind: string, ids: map<Service, string>, order: seq<Service>)
    requires order != []
    ensures var p, rest := order[0], ServiceConns(sections, kind, ids, order[1..]);
            ServiceConns(sections, kind, ids, order) ==
            if p in sections && sections[p].Dict?
            then [Conn(if p in ids then ids[p] else Name(p),
                       Dict(FlatEntry(kind, p, if kind == "app" then AppFields(sections[p].fields)
                                               else ChannelFields(sections[p].fields))))] + rest
            else rest
  {
  }

  lemma OneMore(done: map<Service, Raw>, p: Service, v: Raw, more: map<Service, Raw>)
    requires p !in more
    ensures done[p := v] + more == done + more[p := v]
  {
  }

  lemma NormalAppsCons(sections: map<Service, Raw>, order: seq<Service>)
    requires order != [] && DistinctServices(order)
    ensures var p, more := order[0], NormalApps(sections, order[1..]);
            p !in more && NormalApps(sections, order) ==
            if p in sections && sections[p].Dict? then more[p := Dict(NormalApp(sections[p].fields))] else more
  {
    assert order == [order[0]] + order[1..];
  }

  lemma NormalChannelsCons(sections: map<Service, Raw>, order: seq<Service>)
    requires order != [] && DistinctServices(order)
    ensures var p, more := order[0], NormalChannels(sections, order[1..]);
            p !in more && NormalChannels(sections, order) ==
            if p in sections && sections[p].Dict? then more[p := Dict(NormalChannel(sections[p].fields))] else more
  {
    assert order == [order[0]] + order[1..];
  }

  lemma {:induction false} AppsArrive(l: Legacy, sections: map<Service, Raw>, ids: map<Service, string>, order: seq<Service>)
    requires DistinctServices(order) && forall i :: 0 <= i < |order| ==> IsApp(order[i]) && order[i] !in l.apps
    ensures ToLegacy(l, ServiceConns(sections, "app", ids, order)) == l.(apps := l.apps + NormalApps(sections, order))
    decreases order
  {
    if order == [] {
      assert l.apps + NormalApps(sections, order) == l.apps;
    } else {
      var p, rest := order[0], ServiceConns(sections, "app", ids, order[1..]);
      ServiceConnsCons(sections, "app", ids, order);
      NormalAppsCons(sections, order);
      if p in sections && sections[p].Dict? {
        var m := sections[p].fields;
        var c := Conn(if p in ids then ids[p] else Name(p), Dict(FlatEntry("app", p, AppFields(m))));
        AppArrives(l, p, m, c.id);
        AppsArrive(l.(apps := l.apps[p := Dict(NormalApp(m))]), sections, ids, order[1..]);
        ToLegacyCons(l, c, rest);
        OneMore(l.apps, p, Dict(NormalApp(m)), NormalApps(sections, order[1..]));
      } else {
        AppsArrive(l, sections, ids, order[1..]);
      }
    }
  }

  lemma {:induction false} ChannelsArrive(l: Legacy, sections: map<Service, Raw>, ids: map<Service, string>, order: seq<Service>)
    requires DistinctServices(order) && forall i :: 0 <= i < |order| ==> IsChannel(order[i]) && order[i] !in l.channels
    ensures ToLegacy(l, ServiceConns(sections, "channel", ids, order))
         == l.(channels := l.channels + NormalChannels(sections, order))
    decreases order
  {
    if order == [] {
      assert l.channels + NormalChannels(sections, order) == l.channels;
    } else {
      var p, rest := order[0], ServiceConns(sections, "channel", ids, order[1..]);
      ServiceConnsCons(sections, "channel", ids, order);
      NormalChannelsCons(sections, order);
      if p in sections && sections[p].Dict? {
        var m := sections[p].fields;
        var c := Conn(if p in ids then ids[p] else Name(p), Dict(FlatEntry("channel", p, ChannelFields(m))));
        ChannelArrives(l, p, m, c.id);
        ChannelsArrive(l.(channels := l.channels[p := Dict(NormalChannel(m))]), sections, ids, order[1..]);
        ToLegacyCons(l, c, rest);
        OneMore(l.channels, p, Dict(NormalChannel(m)), NormalChannels(sections, order[1..]));
      } else {
        ChannelsArrive(l, sections, ids, order[1..]);
      }
    }
  }

  lemma {:induction false} ServicesCount(sections: map<Service, Raw>, ids: map<Service, string>, order: seq<Service>)
    requires DistinctServices(order)
    ensures |NormalApps(sections, order)| == |ServiceConns(sections, "app", ids, order)|
    ensures |NormalChannels(sections, order)| == |ServiceConns(sections, "channel", ids, order)|
  {
    if order == [] {
      assert NormalApps(sections, order) == map[] && NormalChannels(sections, order) == map[];
    } else {
      ServicesCount(sections, ids, order[1..]);
      ServiceConnsCons(sections, "app", ids, order);
      ServiceConnsCons(sections, "channel", ids, order);
      NormalAppsCons(sections, order);
      NormalChannelsCons(sections, order);
      if order[0] in sections && sections[order[0]].Dict? {
        UpdateSize(NormalApps(sections, order[1..]), order[0], Dict(NormalApp(sections[order[0]].fields)));
        UpdateSize(NormalChannels(sections, order[1..]), order[0], Dict(NormalChannel(sections[order[0]].fields)));
      }
    }
  }

  lemma DictsCons(accounts: seq<Raw>, i: nat, keys: set<Key>)
    requires i < |accounts|
    ensures Dicts(accounts[i..], keys) ==
            (if accounts[i].Dict? then [Dict(NormalAccount(accounts[i].fields, keys))] else []) + Dicts(accounts[i + 1..], keys)
  {
    assert accounts[i..][0] == accounts[i] && accounts[i..][1..] == accounts[i + 1..];
  }

  lemma Longer(done: seq<Raw>, first: Raw, more: seq<Raw>)
    ensures done + [first] + more == done + ([first] + more)
  {
  }

  lemma {:induction false} MailsArrive(l: Legacy, accounts: seq<Raw>, ids: seq<string>, i: nat)
    requires i <= |accounts|
    ensures ToLegacy(l, AccountConns(accounts, Mail, ids, i)) == l.(mails := l.mails + Dicts(accounts[i..], MAIL_KEYS))
    ensures |Dicts(accounts[i..], MAIL_KEYS)| == |AccountConns(accounts, Mail, ids, i)|
    decreases |accounts| - i
  {
    if i == |accounts| {
      assert l.mails + Dicts(accounts[i..], MAIL_KEYS) == l.mails;
    } else {
      var rest, more := AccountConns(accounts, Mail, ids, i + 1), Dicts(accounts[i + 1..], MAIL_KEYS);
      DictsCons(accounts, i, MAIL_KEYS);
      if accounts[i].Dict? {
        var m := accounts[i].fields;
        var c := Conn(AccountId(Mail, ids, i), Dict(FlatEntry("sync_source", Mail, AccountFields(m, MAIL_KEYS))));
        var first := Dict(NormalAccount(m, MAIL_KEYS));
        MailArrives(l, m, c.id);
        MailsArrive(l.(mails := l.mails + [first]), accounts, ids, i + 1);
        ToLegacyCons(l, c, rest);
        Longer(l.mails, first, more);
      } else {
        MailsArrive(l, accounts, ids, i + 1);
        assert [] + rest == rest && [] + more == more;
      }
    }
  }

  lemma {:induction false} CalendarsArrive(l: Legacy, accounts: seq<Raw>, ids: seq<string>, i: nat)
    requires i <= |accounts|
    ensures ToLegacy(l, AccountConns(accounts, Calendar, ids, i))
         == l.(calendars := l.calendars + Dicts(accounts[i..], CALENDAR_KEYS))
    ensures |Dicts(accounts[i..], CALENDAR_KEYS)| == |AccountConns(accounts, Calendar, ids, i)|
    decreases |accounts| - i
  {
    if i == |accounts| {
      assert l.calendars + Dicts(accounts[i..], CALENDAR_KEYS) == l.calendars;
    } else {
      var rest, more := AccountConns(accounts, Calendar, ids, i + 1), Dicts(accounts[i + 1..], CALENDAR_KEYS);
      DictsCons(accounts, i, CALENDAR_KEYS);
      if accounts[i].Dict? {
        var m := accounts[i].fields;
        var c := Conn(AccountId(Calendar, ids, i), Dict(FlatEntry("sync_source", Calendar, AccountFields(m, CALENDAR_KEYS))));
        var first := Dict(NormalAccount(m, CALENDAR_KEYS));
        CalendarArrives(l, m, c.id);
        CalendarsArrive(l.(calendars := l.calendars + [first]), accounts, ids, i + 1);
        ToLegacyCons(l, c, rest);
        Longer(l.calendars, first, more);
      } else {
        CalendarsArrive(l, accounts, ids, i + 1);
        assert [] + rest == rest && [] + more == more;
      }
    }
  }

  /** The order in which the host walks a set of names: each once. */
  ghost predicate Walks(order: seq<Service>, apps: bool) {
    DistinctServices(order) && forall p: Service :: p in order <==> if apps then IsApp(p) else IsChannel(p)
  }

  lemma NormalParts(l: Legacy, apps: seq<Service>, channels: seq<Service>)
    requires Walks(apps, true) && Walks(channels, false)
    ensures NormalApps(l.apps, apps) == Normal(l).apps == map[] + Normal(l).apps
    ensures NormalChannels(l.channels, channels) == Normal(l).channels == map[] + Normal(l).channels
    ensures Dicts(l.mails[0..], MAIL_KEYS) == Normal(l).mails == [] + Normal(l).mails
    ensures Dicts(l.calendars[0..], CALENDAR_KEYS) == Normal(l).calendars == [] + Normal(l).calendars
  {
    assert l.mails[0..] == l.mails && l.calendars[0..] == l.calendars;
  }

  lemma FourParts(l0: Legacy, a: seq<Conn>, b: seq<Conn>, c: seq<Conn>, d: seq<Conn>)
    ensures ToLegacy(l0, a + b + c + d) == ToLegacy(ToLegacy(ToLegacy(ToLegacy(l0, a), b), c), d)
  {
    ToLegacyMore(l0, a + b + c, d);
    ToLegacyMore(l0, a + b, c);
    ToLegacyMore(l0, a, b);
  }

  /** Taken back one by one, before ids collide, the entries give the normal form. */
  lemma AssignedArrives(l: Legacy, preferred: seq<Conn>, apps: seq<Service>, channels: seq<Service>)
    requires Walks(apps, true) && Walks(channels, false)
    ensures ToLegacy(NOTHING, Assigned(l, preferred, apps, channels)) == Normal(l)
  {
    var n := Normal(l);
    NormalParts(l, apps, channels);
    AppsArrive(NOTHING, l.apps, ServiceIds(preferred, "app"), apps);
    var l1 := NOTHING.(apps := n.apps);
    ChannelsArrive(l1, l.channels, ServiceIds(preferred, "channel"), channels);
    var l2 := l1.(channels := n.channels);
    MailsArrive(l2, l.mails, AccountIds(preferred, Mail), 0);
    var l3 := l2.(mails := n.mails);
    CalendarsArrive(l3, l.calendars, AccountIds(preferred, Calendar), 0);
    FourParts(NOTHING,
              ServiceConns(l.apps, "app", ServiceIds(preferred, "app"), apps),
              ServiceConns(l.channels, "channel", ServiceIds(preferred, "channel"), channels),
              AccountConns(l.mails, Mail, AccountIds(preferred, Mail), 0),
              AccountConns(l.calendars, Calendar, AccountIds(preferred, Calendar), 0));
  }

  lemma AssignedSize(l: Legacy, preferred: seq<Conn>, apps: seq<Service>, channels: seq<Service>)
    requires Walks(apps, true) && Walks(channels, false)
    ensures Size(Normal(l)) == |Assigned(l, preferred, apps, channels)|
  {
    NormalParts(l, apps, channels);
    ServicesCount(l.apps, ServiceIds(preferred, "app"), apps);
    ServicesCount(l.channels, ServiceIds(preferred, "channel"), channels);
    MailsArrive(NOTHING, l.mails, AccountIds(preferred, Mail), 0);
    CalendarsArrive(NOTHING, l.calendars, AccountIds(preferred, Calendar), 0);
  }

  /** The legacy configuration comes back, in normal form and in order, exactly when no two entries
      were assigned the same id. */
  lemma RoundTripIff(l: Legacy, preferred: seq<Conn>, apps: seq<Service>, channels: seq<Service>)
    requires Walks(apps, true) && Walks(channels, false)
    ensures ToLegacy(NOTHING, ToConnections(l, preferred, apps, channels)) == Normal(l)
            <==> DistinctIds(Assigned(l, preferred, apps, channels))
  {
    var cs := Assigned(l, preferred, apps, channels);
    AssignedArrives(l, preferred, apps, channels);
    AssignedSize(l, preferred, apps, channels);
    PutAllIff([], cs);
    assert [] + cs == cs;
    if !DistinctIds(cs) {
      ToLegacySize(NOTHING, PutAll([], cs));
    }
  }

  /** The normal form is a fixpoint exactly when no account holds a null. */
  lemma {:induction false} DictsTwice(sections: seq<Raw>, keys: set<Key>)
    ensures Dicts(Dicts(sections, keys), keys) == Dicts(sections, keys)
            <==> forall i :: 0 <= i < |sections| && sections[i].Dict? ==> WithoutNulls(sections[i].fields, keys)
  {
    if sections != [] {
      DictsTwice(sections[1..], keys);
      var rest := Dicts(sections[1..], keys);
      assert forall i :: 0 < i < |sections| ==> sections[i] == sections[1..][i - 1];
      if sections[0].Dict? {
        var n := NormalAccount(sections[0].fields, keys);
        NormalAccountTwice(sections[0].fields, keys);
        assert ([Dict(n)] + rest)[1..] == rest && ([Dict(n)] + rest)[0] == Dict(n);
        var twice := [Dict(NormalAccount(n, keys))] + Dicts(rest, keys);
        assert Dicts(Dicts(sections, keys), keys) == twice;
        assert twice == [Dict(n)] + rest <==> NormalAccount(n, keys) == n && Dicts(rest, keys) == rest by {
          assert twice[0] == Dict(NormalAccount(n, keys)) && twice[1..] == Dicts(rest, keys);
        }
      } else {
        assert [] + rest == rest;
      }
    }
  }

  lemma NormalTwice(l: Legacy)
    ensures Normal(Normal(l)) == Normal(l) <==>
            && (forall i :: 0 <= i < |l.mails| && l.mails[i].Dict? ==> WithoutNulls(l.mails[i].fields, MAIL_KEYS))
            && (forall i :: 0 <= i < |l.calendars| && l.calendars[i].Dict? ==>
                  WithoutNulls(l.calendars[i].fields, CALENDAR_KEYS))
  {
    DictsTwice(l.mails, MAIL_KEYS);
    DictsTwice(l.calendars, CALENDAR_KEYS);
    var n := Normal(l);
    forall p | p in n.apps ensures NormalApp(n.apps[p].fields) == n.apps[p].fields {
      NormalAppTwice(l.apps[p].fields);
    }
    forall p | p in n.channels ensures NormalChannel(n.channels[p].fields) == n.channels[p].fields {
      NormalChannelTwice(l.channels[p].fields);
    }
    assert Normal(n).apps == n.apps && Normal(n).channels == n.channels;
  }

  /** The failing case: the only preferred mail id is the positional default of the second account. */
  lemma PreferredIdClashes(l: Legacy, preferred: seq<Conn>, apps: seq<Service>, channels: seq<Service>)
    requires |l.mails| > 1 && l.mails[0].Dict? && l.mails[1].Dict?
    requires AccountIds(preferred, Mail) == ["email_2"]
    ensures !DistinctIds(Assigned(l, preferred, apps, channels))
  {
    var ids := AccountIds(preferred, Mail);
    assert T.NatText(2) == "2";
    assert AccountId(Mail, ids, 0) == "email_2" == AccountId(Mail, ids, 1);
    var mails := AccountConns(l.mails, Mail, ids, 0);
    MailConnsStart(l.mails, ids);
    var front := ServiceConns(l.apps, "app", ServiceIds(preferred, "app"), apps)
      + ServiceConns(l.channels, "channel", ServiceIds(preferred, "channel"), channels);
    var cs := Assigned(l, preferred, apps, channels);
    assert cs[|front|] == mails[0] && cs[|front| + 1] == mails[1];
  }

  lemma MailConnsStart(mails: seq<Raw>, ids: seq<string>)
    requires |mails| > 1 && mails[0].Dict? && mails[1].Dict?
    ensures var cs := AccountConns(mails, Mail, ids, 0);
            |cs| > 1 && cs[0].id == AccountId(Mail, ids, 0) && cs[1].id == AccountId(Mail, ids, 1)
  {
    var rest := AccountConns(mails, Mail, ids, 1);
    assert rest[0].id == AccountId(Mail, ids, 1);
  }

  // ------------------------------------------------------------------ the loops

  /** `connections_raw_to_legacy` */
  method ConnectionsToLegacy(conns: seq<Conn>) returns (l: Legacy)
    ensures l == ToLegacy(NOTHING, conns)
  {
    var apps: map<Service, Raw>, channels: map<Service, Raw> := map[], map[];
    var mails: seq<Raw>, calendars: seq<Raw> := [], [];
    for i := 0 to |conns|
      invariant ToLegacy(Legacy(apps, channels, mails, calendars), conns[i..]) == ToLegacy(NOTHING, conns)
    {
      assert conns[i..][0] == conns[i] && conns[i..][1..] == conns[i + 1..];
      if conns[i].entry.Other? {
        continue;
      }
      var entry := CleanAll(conns[i].entry.fields);
      var kind, provider := TextAt(entry, Kind), Named(TextAt(entry, Provider));
      if kind == "app" && IsApp(provider) {
        apps := apps[provider := Dict(AppSection(entry))];
        continue;
      }
      if kind == "channel" && IsChannel(provider) {
        channels := channels[provider := Dict(ChannelFields(entry))];
        continue;
      }
      if kind == "sync_source" && provider.Mail? {
        mails := mails + [Dict(AccountSection(entry, MAIL_KEYS))];
        continue;
      }
      if kind == "sync_source" && provider.Calendar? {
        calendars := calendars + [Dict(AccountSection(entry, CALENDAR_KEYS))];
      }
    }
    l := Legacy(apps, channels, mails, calendars);
  }

  method CollectIds(preferred: seq<Conn>)
    returns (apps: map<Service, string>, channels: map<Service, string>, mails: seq<string>, calendars: seq<string>)
    ensures apps == ServiceIds(preferred, "app") && channels == ServiceIds(preferred, "channel")
    ensures mails == AccountIds(preferred, Mail) && calendars == AccountIds(preferred, Calendar)
  {
    apps, channels, mails, calendars := map[], map[], [], [];
    for i := 0 to |preferred|
      invariant apps == ServiceIds(preferred[..i], "app") && channels == ServiceIds(preferred[..i], "channel")
      invariant mails == AccountIds(preferred[..i], Mail) && calendars == AccountIds(preferred[..i], Calendar)
    {
      assert preferred[..i + 1][..i] == preferred[..i];
      var c := preferred[i];
      if c.entry.Other? {
        continue;
      }
      var p := SaysProvider(c.entry.fields);
      if SaysKind(c.entry.fields, "app") && IsApp(p) && p !in apps {
        apps := apps[p := c.id];
      } else if SaysKind(c.entry.fields, "channel") && IsChannel(p) && p !in channels {
        channels := channels[p := c.id];
      } else if SaysKind(c.entry.fields, "sync_source") && p.Mail? {
        mails := mails + [c.id];
      } else if SaysKind(c.entry.fields, "sync_source") && p.Calendar? {
        calendars := calendars + [c.id];
      }
    }
    assert preferred[..|preferred|] == preferred;
  }

  lemma {:induction false} PutAllMore(out: seq<Conn>, a: seq<Conn>, b: seq<Conn>)
    ensures PutAll(out, a + b) == PutAll(PutAll(out, a), b)
    decreases a
  {
    if a == [] {
      assert a + b == b;
    } else {
      assert (a + b)[0] == a[0] && (a + b)[1..] == a[1..] + b;
      PutAllMore(Put(out, a[0]), a[1..], b);
    }
  }

  lemma PutAllCons(out: seq<Conn>, c: Conn, rest: seq<Conn>)
    ensures PutAll(out, [c] + rest) == PutAll(Put(out, c), rest)
  {
    assert ([c] + rest)[0] == c && ([c] + rest)[1..] == rest;
  }

  method AddServices(out0: seq<Conn>, sections: map<Service, Raw>, kind: string, ids: map<Service, string>, order: seq<Service>)
    returns (out: seq<Conn>)
    ensures out == PutAll(out0, ServiceConns(sections, kind, ids, order))
  {
    out := out0;
    for i := 0 to |order|
      invariant PutAll(out, ServiceConns(sections, kind, ids, order[i..])) == PutAll(out0, ServiceConns(sections, kind, ids, order))
    {
      var p := order[i];
      assert order[i..][0] == p && order[i..][1..] == order[i + 1..];
      ServiceConnsCons(sections, kind, ids, order[i..]);
      if p !in sections || sections[p].Other? {
        continue;
      }
      var m := sections[p].fields;
      var c := Conn(if p in ids then ids[p] else Name(p),
                    Dict(FlatEntry(kind, p, if kind == "app" then AppFields(m) else ChannelFields(m))));
      PutAllCons(out, c, ServiceConns(sections, kind, ids, order[i + 1..]));
      out := Put(out, c);
    }
  }

  method AddAccounts(out0: seq<Conn>, accounts: seq<Raw>, p: Service, ids: seq<string>) returns (out: seq<Conn>)
    ensures out == PutAll(out0, AccountConns(accounts, p, ids, 0))
  {
    out := out0;
    for i := 0 to |accounts|
      invariant PutAll(out, AccountConns(accounts, p, ids, i)) == PutAll(out0, AccountConns(accounts, p, ids, 0))
    {
      if accounts[i].Other? {
        assert [] + AccountConns(accounts, p, ids, i + 1) == AccountConns(accounts, p, ids, i + 1);
        continue;
      }
      var c := Conn(AccountId(p, ids, i), Dict(FlatEntry("sync_source", p, AccountFields(accounts[i].fields, AccountKeys(p)))));
      PutAllCons(out, c, AccountConns(accounts, p, ids, i + 1));
      out := Put(out, c);
    }
  }

  /** `legacy_to_connections_raw` */
  method LegacyToConnections(l: Legacy, preferred: seq<Conn>, apps: seq<Service>, channels: seq<Service>)
    returns (out: seq<Conn>)
    ensures out == ToConnections(l, preferred, apps, channels)
  {
    var appIds, channelIds, mailIds, calendarIds := CollectIds(preferred);
    ghost var a := ServiceConns(l.apps, "app", appIds, apps);
    ghost var b := ServiceConns(l.channels, "channel", channelIds, channels);
    ghost var c := AccountConns(l.mails, Mail, mailIds, 0);
    ghost var d := AccountConns(l.calendars, Calendar, calendarIds, 0);
    out := AddServices([], l.apps, "app", appIds, apps);
    out := AddServices(out, l.channels, "channel", channelIds, channels);
    PutAllMore([], a, b);
    out := AddAccounts(out, l.mails, Mail, mailIds);
    PutAllMore([], a + b, c);
    out := AddAccounts(out, l.calendars, Calendar, calendarIds);
    PutAllMore([], a + b + c, d);
  }
}
