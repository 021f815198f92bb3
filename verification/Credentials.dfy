/**
 The client's state file and the GitHub credentials in it: what each command leaves stored, what can be
 read back, and what can be spent without a human.
 */
module Credentials {
  import opened Models

  /** A stored value: ordinary text, or the ISO text of a moment, which parses back to that moment. */
  datatype Text = Plain(text: string) | Iso(moment: Instant)

  type Entries = map<string, Text>

  const ACCESS_KEY := "github_access_token"
  const REFRESH_KEY := "github_refresh_token"
  const ACCESS_EXPIRY_KEY := "github_access_token_expires_at"
  const REFRESH_EXPIRY_KEY := "github_refresh_token_expires_at"
  const TOKEN_KEYS: seq<string> := [ACCESS_KEY, REFRESH_KEY, ACCESS_EXPIRY_KEY, REFRESH_EXPIRY_KEY]
  const STORE_KEY := "store_github_token"
  const HUB_URL_KEY := "hub_url"
  const HUB_TOKEN_KEY := "token"

  datatype TokenSet = TokenSet(
    accessToken: string,
    refreshToken: Option<string>,
    accessExpiresAt: Option<Instant>,
    refreshExpiresAt: Option<Instant>
  )

  /** What GitHub sends when it issues or refreshes a token. */
  datatype Grant = Grant(accessToken: string, refreshToken: Option<string>, expiresIn: Option<int>, refreshExpiresIn: Option<int>)

  function ExpiresAt(issuedAt: Instant, seconds: Option<int>): Option<Instant> {
    if seconds.None? then None else Some(After(issuedAt, seconds.value))
  }

  /** An empty refresh token reads as no refresh token. */
  function FromGrant(grant: Grant, issuedAt: Instant): TokenSet {
    TokenSet(
      grant.accessToken,
      if grant.refreshToken == Some("") then None else grant.refreshToken,
      ExpiresAt(issuedAt, grant.expiresIn),
      ExpiresAt(issuedAt, grant.refreshExpiresIn)
    )
  }

  predicate OptedOut(entries: Entries) {
    STORE_KEY in entries && entries[STORE_KEY] == Plain("false")
  }

  /** Token keys hold text and expiry keys hold ISO text, as every writer leaves them. */
  predicate WellTyped(entries: Entries) {
    && (forall key | key in [ACCESS_KEY, REFRESH_KEY] && key in entries :: entries[key].Plain?)
    && (forall key | key in [ACCESS_EXPIRY_KEY, REFRESH_EXPIRY_KEY] && key in entries :: entries[key].Iso?)
  }

  function TextAt(entries: Entries, key: string): Option<string> {
    if key in entries && entries[key].Plain? then Some(entries[key].text) else None
  }

  function MomentAt(entries: Entries, key: string): Option<Instant> {
    if key in entries && entries[key].Iso? then Some(entries[key].moment) else None
  }

  /** The stored credentials; an absent or empty access token means there are none. */
  function FromState(entries: Entries): Option<TokenSet>
    requires WellTyped(entries)
  {
    var access := TextAt(entries, ACCESS_KEY);
    if access.None? || access.value == "" then None
    else
      Some(TokenSet(access.value, TextAt(entries, REFRESH_KEY), MomentAt(entries, ACCESS_EXPIRY_KEY), MomentAt(entries, REFRESH_EXPIRY_KEY)))
  }

  /** The entries a set is stored as: one for each part it has. */
  function AsStateFields(tokens: TokenSet): Entries {
    map[ACCESS_KEY := Plain(tokens.accessToken)]
    + (if tokens.refreshToken.Some? then map[REFRESH_KEY := Plain(tokens.refreshToken.value)] else map[])
    + (if tokens.accessExpiresAt.Some? then map[ACCESS_EXPIRY_KEY := Iso(tokens.accessExpiresAt.value)] else map[])
    + (if tokens.refreshExpiresAt.Some? then map[REFRESH_EXPIRY_KEY := Iso(tokens.refreshExpiresAt.value)] else map[])
  }

  function TokenKeySet(): set<string> {
    {ACCESS_KEY, REFRESH_KEY, ACCESS_EXPIRY_KEY, REFRESH_EXPIRY_KEY}
  }

  /** The part of a state file that is GitHub credentials. */
  function StoredFields(entries: Entries): Entries {
    map key | key in entries && key in TokenKeySet() :: entries[key]
  }

  function OtherFields(entries: Entries): Entries {
    map key | key in entries && key !in TokenKeySet() :: entries[key]
  }

  function Persisted(entries: Entries, tokens: TokenSet): Entries {
    if OptedOut(entries) then OtherFields(entries) else OtherFields(entries) + AsStateFields(tokens)
  }

  /** The state dict of a running client, and the file it is saved to. */
  class ClientState {
    var entries: Entries
    var file: Entries

    constructor (file: Entries)
      ensures this.file == file && entries == file
    {
      this.file := file;
      entries := file;
    }

    /** Clear the four keys, write the new set unless opted out, save. */
    method PersistGithubTokens(tokens: TokenSet)
      modifies this
      ensures entries == Persisted(old(entries), tokens) && file == entries
    {
      for i := 0 to |TOKEN_KEYS|
        invariant entries == map key | key in old(entries) && key !in TOKEN_KEYS[..i] :: old(entries)[key]
      {
        entries := entries - {TOKEN_KEYS[i]};
        assert TOKEN_KEYS[..i + 1] == TOKEN_KEYS[..i] + [TOKEN_KEYS[i]];
      }
      assert TOKEN_KEYS[..|TOKEN_KEYS|] == TOKEN_KEYS;
      assert entries == OtherFields(old(entries));
      if !OptedOut(entries) {
        entries := entries + AsStateFields(tokens);
      }
      file := entries;
    }
  }

  // ---- one persist ----

  /** A persist leaves exactly the given set, or nothing if opted out, and no other key changed. */
  lemma PersistReplaces(entries: Entries, tokens: TokenSet)
    ensures StoredFields(Persisted(entries, tokens)) == (if OptedOut(entries) then map[] else AsStateFields(tokens))
    ensures OtherFields(Persisted(entries, tokens)) == OtherFields(entries)
    ensures OptedOut(Persisted(entries, tokens)) == OptedOut(entries)
  {
  }

  lemma PersistStaysTyped(entries: Entries, tokens: TokenSet)
    requires WellTyped(entries)
    ensures WellTyped(Persisted(entries, tokens))
  {
  }

  /**
   Reading back gives the set that was stored if and only if its access token is not empty; GitHub's
   empty token is stored but reads as no credentials at all.
   */
  lemma ReadBack(entries: Entries, tokens: TokenSet)
    requires WellTyped(entries) && !OptedOut(entries)
    ensures WellTyped(Persisted(entries, tokens))
    ensures FromState(Persisted(entries, tokens)) == Some(tokens) <==> tokens.accessToken != ""
    ensures FromState(Persisted(entries, tokens)) == None <==> tokens.accessToken == ""
  {
    PersistStaysTyped(entries, tokens);
    var after := Persisted(entries, tokens);
    assert TextAt(after, ACCESS_KEY) == Some(tokens.accessToken);
    assert TextAt(after, REFRESH_KEY) == tokens.refreshToken;
    assert MomentAt(after, ACCESS_EXPIRY_KEY) == tokens.accessExpiresAt;
    assert MomentAt(after, REFRESH_EXPIRY_KEY) == tokens.refreshExpiresAt;
  }

  /** So what GitHub grants is stored and read back whole, in either of its shapes, unless its token is empty. */
  lemma GrantReadsBack(entries: Entries, grant: Grant, issuedAt: Instant)
    requires WellTyped(entries) && !OptedOut(entries)
    ensures FromState(Persisted(entries, FromGrant(grant, issuedAt))) == Some(FromGrant(grant, issuedAt)) <==> grant.accessToken != ""
  {
    ReadBack(entries, FromGrant(grant, issuedAt));
  }

  /** The failing input: an empty access token is written, and gone on the next read. */
  lemma EmptyTokenIsLost()
    ensures WellTyped(Persisted(map[], TokenSet("", Some("r"), None, None)))
    ensures FromState(Persisted(map[], TokenSet("", Some("r"), None, None))) == None
    ensures ACCESS_KEY in Persisted(map[], TokenSet("", Some("r"), None, None))
  {
  }

  // ---- in the file's own keys, and GitHub's own fields ----

  /** The credentials as the file spells them: one key for each part the set has, and no other. */
  predicate SpellsTokens(entries: Entries, tokens: TokenSet) {
    && "github_access_token" in entries && entries["github_access_token"] == Plain(tokens.accessToken)
    && ("github_refresh_token" in entries <==> tokens.refreshToken.Some?)
    && (tokens.refreshToken.Some? ==> entries["github_refresh_token"] == Plain(tokens.refreshToken.value))
    && ("github_access_token_expires_at" in entries <==> tokens.accessExpiresAt.Some?)
    && (tokens.accessExpiresAt.Some? ==> entries["github_access_token_expires_at"] == Iso(tokens.accessExpiresAt.value))
    && ("github_refresh_token_expires_at" in entries <==> tokens.refreshExpiresAt.Some?)
    && (tokens.refreshExpiresAt.Some? ==> entries["github_refresh_token_expires_at"] == Iso(tokens.refreshExpiresAt.value))
  }

  predicate SpellsNoTokens(entries: Entries) {
    && "github_access_token" !in entries && "github_refresh_token" !in entries
    && "github_access_token_expires_at" !in entries && "github_refresh_token_expires_at" !in entries
  }

  /** What a login leaves in the file: the hub and its token, and either the opt-out marker or what GitHub issued. */
  lemma LoginWrites(disk: Disk, hubUrl: string, hubToken: string, tokens: TokenSet, optOut: bool)
    ensures var file := AfterCommand(disk, Login(hubUrl, hubToken, tokens, optOut, true)).file;
            && "hub_url" in file && file["hub_url"] == Plain(hubUrl)
            && "token" in file && file["token"] == Plain(hubToken)
            && ("store_github_token" in file <==> optOut)
            && (optOut ==> file["store_github_token"] == Plain("false") && SpellsNoTokens(file))
            && (!optOut ==> SpellsTokens(file, tokens))
  {
    FreshEntriesHoldNoTokens(hubUrl, hubToken, optOut);
    FreshEntriesSpelled(hubUrl, hubToken, optOut);
    FieldsSpelled(tokens);
    assert Persisted(FreshEntries(hubUrl, hubToken, optOut), tokens)
        == if optOut then FreshEntries(hubUrl, hubToken, optOut) else FreshEntries(hubUrl, hubToken, optOut) + AsStateFields(tokens);
  }

  lemma FreshEntriesSpelled(hubUrl: string, hubToken: string, optOut: bool)
    ensures var file := FreshEntries(hubUrl, hubToken, optOut);
            && "hub_url" in file && file["hub_url"] == Plain(hubUrl)
            && "token" in file && file["token"] == Plain(hubToken)
            && ("store_github_token" in file <==> optOut)
            && (optOut ==> file["store_github_token"] == Plain("false"))
            && SpellsNoTokens(file)
  {
  }

  lemma FieldsSpelled(tokens: TokenSet)
    ensures SpellsTokens(AsStateFields(tokens), tokens)
    ensures "hub_url" !in AsStateFields(tokens) && "token" !in AsStateFields(tokens) && "store_github_token" !in AsStateFields(tokens)
  {
  }

  /** A grant is read field by field; an empty refresh token is none, and an expiry is that many seconds from its issue. */
  lemma GrantIsRead(grant: Grant, issuedAt: Instant)
    ensures var tokens := FromGrant(grant, issuedAt);
            && tokens.accessToken == grant.accessToken
            && (tokens.refreshToken.Some? <==> grant.refreshToken.Some? && grant.refreshToken.value != "")
            && (tokens.refreshToken.Some? ==> tokens.refreshToken == grant.refreshToken)
            && tokens.accessExpiresAt == (if grant.expiresIn == None then None else Some(issuedAt + grant.expiresIn.value * 1_000_000))
            && tokens.refreshExpiresAt
               == (if grant.refreshExpiresIn == None then None else Some(issuedAt + grant.refreshExpiresIn.value * 1_000_000))
  {
  }

  // ---- any sequence of commands ----

  type ProcessId = nat

  /**
   What touches the state file. A `loop`, and a `check-in --reattest`, loads the file once when it starts
   and from then on renews and saves its own dict.
   */
  datatype Command =
    | Login(hubUrl: string, hubToken: string, tokens: TokenSet, optOut: bool, accepted: bool)
    | Register(hubUrl: string, hubToken: string, accepted: bool)
    | Start(process: ProcessId)
    | Renewal(process: ProcessId, tokens: TokenSet, accepted: bool)
  {
    predicate Enrols() {
      (Login? || Register?) && accepted
    }

    predicate OptsOut() {
      Login? && optOut
    }

    /** A fresh dict, not an update of the old one. */
    function Writes(): Entries
      requires Enrols()
    {
      FreshEntries(hubUrl, hubToken, OptsOut())
    }
  }

  function FreshEntries(hubUrl: string, hubToken: string, optOut: bool): Entries {
    map[HUB_URL_KEY := Plain(hubUrl), HUB_TOKEN_KEY := Plain(hubToken)]
    + (if optOut then map[STORE_KEY := Plain("false")] else map[])
  }

  /** The state file, empty while there is none, and the dict each running process has loaded. */
  datatype Disk = Disk(file: Entries, loaded: map<ProcessId, Entries>)

  function AfterCommand(disk: Disk, command: Command): Disk {
    match command
    case Login(_, _, tokens, _, accepted) =>
      if accepted then disk.(file := Persisted(command.Writes(), tokens)) else disk
    case Register(_, _, accepted) =>
      if accepted then disk.(file := command.Writes()) else disk
    case Start(process) =>
      if disk.file == map[] then disk else disk.(loaded := disk.loaded[process := disk.file])
    case Renewal(process, tokens, accepted) =>
      if !accepted || process !in disk.loaded then disk
      else
        var renewed := Persisted(disk.loaded[process], tokens);
        Disk(renewed, disk.loaded[process := renewed])
  }

  function AfterCommands(commands: seq<Command>): Disk {
    if commands == [] then Disk(map[], map[])
    else AfterCommand(AfterCommands(commands[..|commands| - 1]), commands[|commands| - 1])
  }

  /** A renewal the hub accepted, by a process that is running. */
  predicate Renews(before: seq<Command>, command: Command) {
    command.Renewal? && command.accepted && command.process in AfterCommands(before).loaded
  }

  // ---- the same, told from the commands alone ----

  /** The last set the hub accepted. A plain registration starts over without one. */
  function LastAccepted(commands: seq<Command>): Option<TokenSet> {
    if commands == [] then None
    else
      var before, last := commands[..|commands| - 1], commands[|commands| - 1];
      if (last.Login? && last.accepted) || Renews(before, last) then Some(last.tokens)
      else if last.Register? && last.accepted then None
      else LastAccepted(before)
  }

  /** The last accepted enrolment. */
  function LastEnrolment(commands: seq<Command>): (k: Option<nat>)
    ensures k.Some? ==> k.value < |commands| && commands[k.value].Enrols()
  {
    if commands == [] then None
    else if commands[|commands| - 1].Enrols() then Some(|commands| - 1)
    else LastEnrolment(commands[..|commands| - 1])
  }

  /** The enrolment whose dict the file carries on. */
  function FileFrom(commands: seq<Command>): (k: Option<nat>)
    ensures k.Some? ==> k.value < |commands| && commands[k.value].Enrols()
    decreases |commands|
  {
    if commands == [] then None
    else
      var before, last := commands[..|commands| - 1], commands[|commands| - 1];
      if last.Enrols() then Some(|commands| - 1)
      else if Renews(before, last) then LoadedFrom(before, last.process)
      else FileFrom(before)
  }

  /** The enrolment whose dict a process carries on. */
  function LoadedFrom(commands: seq<Command>, process: ProcessId): (k: Option<nat>)
    ensures k.Some? ==> k.value < |commands| && commands[k.value].Enrols()
    decreases |commands|
  {
    if commands == [] then None
    else
      var before, last := commands[..|commands| - 1], commands[|commands| - 1];
      if last == Start(process) && AfterCommands(before).file != map[] then FileFrom(before)
      else LoadedFrom(before, process)
  }

  /** Whether an enrolment was accepted after this process started. */
  predicate EnrolledSince(commands: seq<Command>, process: ProcessId) {
    if commands == [] then false
    else
      var before, last := commands[..|commands| - 1], commands[|commands| - 1];
      if last == Start(process) && AfterCommands(before).file != map[] then false
      else last.Enrols() || EnrolledSince(before, process)
  }

  lemma FreshEntriesHoldNoTokens(hubUrl: string, hubToken: string, optOut: bool)
    ensures StoredFields(FreshEntries(hubUrl, hubToken, optOut)) == map[]
    ensures OtherFields(FreshEntries(hubUrl, hubToken, optOut)) == FreshEntries(hubUrl, hubToken, optOut)
    ensures OptedOut(FreshEntries(hubUrl, hubToken, optOut)) == optOut
    ensures WellTyped(FreshEntries(hubUrl, hubToken, optOut))
  {
  }

  /** These entries carry on the dict that enrolment wrote: its keys, its choice, and well-typed credentials. */
  predicate CarriesOn(entries: Entries, commands: seq<Command>, k: Option<nat>) {
    && k.Some? && k.value < |commands| && commands[k.value].Enrols()
    && OtherFields(entries) == commands[k.value].Writes()
    && OptedOut(entries) == commands[k.value].OptsOut()
    && WellTyped(entries)
  }

  /** The credentials the file should show beside the given enrolment's choice. */
  function Kept(commands: seq<Command>, k: Option<nat>): Entries
    requires k.Some? ==> k.value < |commands|
  {
    var accepted := LastAccepted(commands);
    if k.None? || accepted.None? || commands[k.value].OptsOut() then map[] else AsStateFields(accepted.value)
  }

  lemma PersistCarriesOn(entries: Entries, tokens: TokenSet, commands: seq<Command>, k: Option<nat>)
    requires CarriesOn(entries, commands, k)
    ensures CarriesOn(Persisted(entries, tokens), commands, k)
    ensures StoredFields(Persisted(entries, tokens)) == (if commands[k.value].OptsOut() then map[] else AsStateFields(tokens))
  {
    PersistReplaces(entries, tokens);
    PersistStaysTyped(entries, tokens);
  }

  lemma EnrolmentCarriesItself(commands: seq<Command>)
    requires commands != [] && commands[|commands| - 1].Enrols()
    ensures var last := commands[|commands| - 1];
            CarriesOn(last.Writes(), commands, Some(|commands| - 1)) && StoredFields(last.Writes()) == map[]
  {
    var last := commands[|commands| - 1];
    FreshEntriesHoldNoTokens(last.hubUrl, last.hubToken, last.OptsOut());
  }

  lemma StillCarriesOn(entries: Entries, before: seq<Command>, commands: seq<Command>, k: Option<nat>)
    requires CarriesOn(entries, before, k) && |before| <= |commands| && commands[..|before|] == before
    ensures CarriesOn(entries, commands, k)
  {
    assert commands[..|before|][k.value] == commands[k.value];
  }

  predicate FileAgrees(commands: seq<Command>) {
    var file, from := AfterCommands(commands).file, FileFrom(commands);
    && (file == map[] <==> from.None?)
    && (from.None? ==> LastAccepted(commands).None? && LastEnrolment(commands).None?)
    && (from.Some? ==> CarriesOn(file, commands, from))
    && StoredFields(file) == Kept(commands, from)
  }

  predicate ProcessesAgree(commands: seq<Command>) {
    var loaded := AfterCommands(commands).loaded;
    forall process | process in loaded :: CarriesOn(loaded[process], commands, LoadedFrom(commands, process))
  }

  /**
   What the file and every running process hold after any commands: the last accepted credentials, or
   none of the four keys, by the choice and beside the keys of the enrolment they carry on.
   */
  lemma {:induction false} DiskIsItsHistory(commands: seq<Command>)
    ensures FileAgrees(commands) && ProcessesAgree(commands)
  {
    if commands == [] {
    } else {
      var before := commands[..|commands| - 1];
      DiskIsItsHistory(before);
      FileStep(before, commands);
      ProcessesStep(before, commands);
    }
  }

  predicate Extends(before: seq<Command>, commands: seq<Command>) {
    commands != [] && before == commands[..|commands| - 1]
  }

  lemma FileStep(before: seq<Command>, commands: seq<Command>)
    requires Extends(before, commands) && FileAgrees(before) && ProcessesAgree(before)
    ensures FileAgrees(commands)
  {
    var last := commands[|commands| - 1];
    if last.Enrols() {
      EnrolmentWritesFile(before, commands);
    } else if Renews(before, last) {
      RenewalWritesFile(before, commands);
    } else {
      NothingWritesFile(before, commands);
    }
  }

  lemma NothingWritesFile(before: seq<Command>, commands: seq<Command>)
    requires Extends(before, commands) && FileAgrees(before)
    requires !commands[|commands| - 1].Enrols() && !Renews(before, commands[|commands| - 1])
    ensures FileAgrees(commands)
  {
    var file, from := AfterCommands(before).file, FileFrom(before);
    assert AfterCommands(commands).file == file && FileFrom(commands) == from && LastAccepted(commands) == LastAccepted(before);
    if from.Some? {
      StillCarriesOn(file, before, commands, from);
    }
  }

  lemma EnrolmentWritesFile(before: seq<Command>, commands: seq<Command>)
    requires Extends(before, commands) && commands[|commands| - 1].Enrols()
    ensures FileAgrees(commands)
  {
    var last := commands[|commands| - 1];
    EnrolmentCarriesItself(commands);
    assert HUB_URL_KEY in last.Writes();
    if last.Login? {
      PersistCarriesOn(last.Writes(), last.tokens, commands, Some(|commands| - 1));
      assert HUB_URL_KEY in OtherFields(AfterCommands(commands).file);
    }
  }

  lemma RenewalWritesFile(before: seq<Command>, commands: seq<Command>)
    requires Extends(before, commands) && ProcessesAgree(before) && Renews(before, commands[|commands| - 1])
    ensures FileAgrees(commands)
  {
    var disk, last := AfterCommands(before), commands[|commands| - 1];
    var from := LoadedFrom(before, last.process);
    StillCarriesOn(disk.loaded[last.process], before, commands, from);
    PersistCarriesOn(disk.loaded[last.process], last.tokens, commands, from);
    assert HUB_URL_KEY in OtherFields(AfterCommands(commands).file);
  }

  lemma ProcessesStep(before: seq<Command>, commands: seq<Command>)
    requires Extends(before, commands) && FileAgrees(before) && ProcessesAgree(before)
    ensures ProcessesAgree(commands)
  {
    forall process | process in AfterCommands(commands).loaded
      ensures CarriesOn(AfterCommands(commands).loaded[process], commands, LoadedFrom(commands, process))
    {
      if commands[|commands| - 1] == Start(process) && AfterCommands(before).file != map[] {
        StillCarriesOn(AfterCommands(before).file, before, commands, FileFrom(before));
      } else {
        RunningProcessStep(before, commands, process);
      }
    }
  }

  lemma RunningProcessStep(before: seq<Command>, commands: seq<Command>, process: ProcessId)
    requires Extends(before, commands) && ProcessesAgree(before) && process in AfterCommands(commands).loaded
    requires commands[|commands| - 1] != Start(process) || AfterCommands(before).file == map[]
    ensures CarriesOn(AfterCommands(commands).loaded[process], commands, LoadedFrom(commands, process))
  {
    var loaded, last := AfterCommands(before).loaded[process], commands[|commands| - 1];
    var from := LoadedFrom(before, process);
    assert LoadedFrom(commands, process) == from;
    StillCarriesOn(loaded, before, commands, from);
    if last.Renewal? && last.accepted && last.process == process {
      PersistCarriesOn(loaded, last.tokens, commands, from);
      assert AfterCommands(commands).loaded[process] == Persisted(loaded, last.tokens);
    } else {
      assert AfterCommands(commands).loaded[process] == loaded;
    }
  }

  // ---- when the file is the last enrolment's ----

  /** The hub mints a new client token for every enrolment it accepts. */
  predicate TokensAreFresh(commands: seq<Command>) {
    forall i, k | 0 <= i < k < |commands| && commands[i].Enrols() && commands[k].Enrols() ::
      commands[i].hubToken != commands[k].hubToken
  }

  /** The file holds exactly the last accepted set, or none if the last enrolment opted out, beside what that enrolment wrote. */
  predicate FileIsCurrent(commands: seq<Command>) {
    var file, last := AfterCommands(commands).file, LastEnrolment(commands);
    && StoredFields(file) == Kept(commands, last)
    && OtherFields(file) == (if last.None? then map[] else commands[last.value].Writes())
    && OptedOut(file) == (last.Some? && commands[last.value].OptsOut())
  }

  /** The file is current if and only if it carries on the last enrolment. */
  lemma CurrentMeansLastEnrolment(commands: seq<Command>)
    requires TokensAreFresh(commands)
    ensures FileIsCurrent(commands) <==> FileFrom(commands) == LastEnrolment(commands)
  {
    DiskIsItsHistory(commands);
    FileFromIsNotLater(commands);
    var from, last := FileFrom(commands), LastEnrolment(commands);
    if from.Some? && from != last {
      assert OtherFields(AfterCommands(commands).file)[HUB_TOKEN_KEY] == Plain(commands[from.value].hubToken);
      assert commands[last.value].Writes()[HUB_TOKEN_KEY] == Plain(commands[last.value].hubToken);
    }
  }

  lemma {:induction false} FileFromIsNotLater(commands: seq<Command>)
    ensures FileFrom(commands).Some? ==> LastEnrolment(commands).Some? && FileFrom(commands).value <= LastEnrolment(commands).value
    ensures FileFrom(commands).None? ==> LastEnrolment(commands).None?
    ensures forall process :: LoadedFrom(commands, process).Some? ==>
              LastEnrolment(commands).Some? && LoadedFrom(commands, process).value <= LastEnrolment(commands).value
  {
    if commands == [] {
    } else {
      FileFromIsNotLater(commands[..|commands| - 1]);
      DiskIsItsHistory(commands[..|commands| - 1]);
    }
  }

  /** While the file has been current all along, a process is behind exactly when an enrolment was accepted since it started. */
  lemma {:induction false} BehindMeansEnrolledSince(commands: seq<Command>, process: ProcessId)
    requires forall n | 0 <= n <= |commands| :: FileFrom(commands[..n]) == LastEnrolment(commands[..n])
    requires process in AfterCommands(commands).loaded
    ensures LoadedFrom(commands, process) == LastEnrolment(commands) <==> !EnrolledSince(commands, process)
  {
    var before, last := commands[..|commands| - 1], commands[|commands| - 1];
    forall n | 0 <= n <= |before|
      ensures FileFrom(before[..n]) == LastEnrolment(before[..n])
    {
      assert before[..n] == commands[..n];
    }
    assert commands[..|before|] == before;
    if process in AfterCommands(before).loaded {
      BehindMeansEnrolledSince(before, process);
    }
  }

  /** A renewal by a process that started before an enrolment accepted in the meantime. */
  predicate Overtaken(commands: seq<Command>, k: nat)
    requires k < |commands|
  {
    Renews(commands[..k], commands[k]) && EnrolledSince(commands[..k], commands[k].process)
  }

  /**
   The file is current after every command of a sequence if and only if no renewal in it is by a process
   that started before an enrolment accepted in the meantime.
   */
  lemma FileHoldsLastAccepted(commands: seq<Command>)
    requires TokensAreFresh(commands)
    ensures (forall n | 0 <= n <= |commands| :: FileIsCurrent(commands[..n]))
       <==> (forall k | 0 <= k < |commands| :: !Overtaken(commands, k))
  {
    forall n | 0 <= n <= |commands|
      ensures FileIsCurrent(commands[..n]) <==> FileFrom(commands[..n]) == LastEnrolment(commands[..n])
    {
      CurrentMeansLastEnrolment(commands[..n]);
    }
    if forall k | 0 <= k < |commands| :: !Overtaken(commands, k) {
      CurrentUpTo(commands, |commands|);
    }
    if forall n | 0 <= n <= |commands| :: FileIsCurrent(commands[..n]) {
      forall k | 0 <= k < |commands|
        ensures !Overtaken(commands, k)
      {
        CurrentStep(commands, k);
        assert FileIsCurrent(commands[..k + 1]);
      }
    }
  }

  lemma CurrentStep(commands: seq<Command>, k: nat)
    requires k < |commands|
    requires forall n | 0 <= n <= k :: FileFrom(commands[..n]) == LastEnrolment(commands[..n])
    ensures FileFrom(commands[..k + 1]) == LastEnrolment(commands[..k + 1]) <==> !Overtaken(commands, k)
  {
    var before, next := commands[..k], commands[..k + 1];
    assert next[..k] == before && next[k] == commands[k];
    if Renews(before, commands[k]) {
      forall n | 0 <= n <= k
        ensures FileFrom(before[..n]) == LastEnrolment(before[..n])
      {
        assert before[..n] == commands[..n];
      }
      BehindMeansEnrolledSince(before, commands[k].process);
    }
  }

  lemma {:induction false} CurrentUpTo(commands: seq<Command>, m: nat)
    requires m <= |commands| && forall k | 0 <= k < m :: !Overtaken(commands, k)
    ensures forall n | 0 <= n <= m :: FileFrom(commands[..n]) == LastEnrolment(commands[..n])
  {
    if m == 0 {
    } else {
      CurrentUpTo(commands, m - 1);
      CurrentStep(commands, m - 1);
    }
  }

  /** The failing input: a loop started before a `login --no-store-github-token` undoes that login. */
  function Undone(): seq<Command> {
    [
      Login("hub", "a", TokenSet("t", None, None, None), false, true),
      Start(0),
      Login("hub", "b", TokenSet("u", None, None, None), true, true),
      Renewal(0, TokenSet("t", None, None, None), true)
    ]
  }

  lemma LoopUndoesLogin()
    ensures var commands, file := Undone(), AfterCommands(Undone()).file;
            && TokensAreFresh(commands) && LastEnrolment(commands) == Some(2) && commands[2].OptsOut()
            && Overtaken(commands, 3) && !FileIsCurrent(commands)
            && HUB_TOKEN_KEY in file && file[HUB_TOKEN_KEY] == Plain("a")
            && ACCESS_KEY in file && !OptedOut(file)
  {
    var commands := Undone();
    LoopIsLoaded();
    assert commands[..3][..2] == commands[..2];
    var loaded := AfterCommands(commands[..2]).loaded;
    assert AfterCommands(commands[..3]).loaded == loaded;
    assert EnrolledSince(commands[..3], 0);
    assert AfterCommands(commands).file == Persisted(loaded[0], commands[3].tokens);
    PersistReplaces(loaded[0], commands[3].tokens);
    CurrentMeansLastEnrolment(commands);
  }

  /** The loop's own dict is the first login's. */
  lemma LoopIsLoaded()
    ensures var disk := AfterCommands(Undone()[..2]);
            && 0 in disk.loaded && !EnrolledSince(Undone()[..2], 0)
            && OtherFields(disk.loaded[0]) == FreshEntries("hub", "a", false)
  {
    var commands := Undone();
    assert commands[..2][..1] == commands[..1] && commands[..1][..0] == [];
    var first := AfterCommands(commands[..1]);
    assert first.file == Persisted(commands[0].Writes(), commands[0].tokens);
    FreshEntriesHoldNoTokens("hub", "a", false);
    PersistReplaces(commands[0].Writes(), commands[0].tokens);
    assert ACCESS_KEY in first.file;
    assert AfterCommands(commands[..2]) == AfterCommand(first, Start(0));
  }

  // ---- renewal ----

  /** What a refresh attempt would bring back now: GitHub's grant, or nothing for any refusal or failure. */
  type RefreshAnswer = Option<TokenSet>

  /** The best credential there is without a human, cheapest first. */
  function RenewedAccess(entries: Entries, now: Instant, haveClientId: bool, refreshed: RefreshAnswer): Option<TokenSet>
    requires WellTyped(entries)
  {
    var stored := FromState(entries);
    if stored.None? then None
    else
      var tokens := stored.value;
      if tokens.accessExpiresAt.None? || tokens.accessExpiresAt.value > now then stored
      else
        var refreshExpired := tokens.refreshExpiresAt.Some? && tokens.refreshExpiresAt.value <= now;
        if tokens.refreshToken.None? || refreshExpired || !haveClientId then None else refreshed
  }

  /**
   A renewal spends the stored access token while it lives, and only then asks GitHub, which takes a refresh
   token that lives and the App's id; what comes of it is GitHub's answer, and without any of these nothing.
   */
  lemma RenewalIsDecided(entries: Entries, now: Instant, haveClientId: bool, refreshed: RefreshAnswer)
    requires WellTyped(entries)
    ensures var renewed := RenewedAccess(entries, now, haveClientId, refreshed);
            if ACCESS_KEY !in entries || entries[ACCESS_KEY] == Plain("") then renewed == None
            else if ACCESS_EXPIRY_KEY !in entries || now < entries[ACCESS_EXPIRY_KEY].moment then
              renewed.Some? && renewed.value.accessToken == entries[ACCESS_KEY].text
            else if haveClientId && REFRESH_KEY in entries && (REFRESH_EXPIRY_KEY !in entries || now < entries[REFRESH_EXPIRY_KEY].moment) then
              renewed == refreshed
            else renewed == None
  {
  }

  /** A token GitHub gave no expiry renews itself for good: spent, accepted and stored, it is there again. */
  lemma NonExpiringRenewsForever(entries: Entries, now: Instant, later: Instant, haveClientId: bool, refreshed: RefreshAnswer, again: RefreshAnswer)
    requires WellTyped(entries) && !OptedOut(entries)
    requires FromState(entries).Some? && FromState(entries).value.accessExpiresAt.None?
    ensures RenewedAccess(entries, now, haveClientId, refreshed) == FromState(entries)
    ensures var after := Persisted(entries, FromState(entries).value);
            WellTyped(after) && RenewedAccess(after, later, haveClientId, again) == FromState(entries)
  {
    ReadBack(entries, FromState(entries).value);
  }
}
