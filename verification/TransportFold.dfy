/**
 Folding the network_access table into provisioning settings, and back
 (alembic/versions/tr1_transport_axis.py).
 */
module TransportFold {
  import opened Common

  datatype Kind = Acs | Outbound
  datatype Mode = Direct | Vpn | Tunnel | NatZt | NatPublic
  datatype DialTarget = Device | Gateway
  datatype ProxyKind = NoProxy | Socks5

  datatype Access = Access(company: Id, name: string, kind: Kind, mode: Mode, isDefault: bool, acsUrl: Option<string>,
                           gatewayHost: Option<string>, pylon: Option<string>, vpn: Option<string>, authRequired: bool)

  /** One row for each company; `enabled` and `interval` stand for what the fold leaves alone. */
  datatype Settings = Settings(enabled: bool, interval: Option<int>,
                               dial: DialTarget, proxy: ProxyKind, proxyAddress: Option<string>,
                               gatewayHost: Option<string>, acsUrl: Option<string>, authRequired: bool,
                               current: Option<Id>, pending: Option<Id>)

  /** `httpBasic`: the kind is HTTP_BASIC; `access` is the network_access row it is bound to. */
  datatype Credential = Credential(company: Id, created: int, httpBasic: bool, access: Option<Id>)

  /** Settings are keyed by company. Columns that a schema lacks hold their default. */
  datatype Db = Db(access: map<Id, Access>, settings: map<Id, Settings>, credentials: map<Id, Credential>)

  /* ---------- The constraints on either side ---------- */

  /** The CHECKs of network_access. */
  predicate AccessOk(a: Access) {
    && (a.mode in {NatZt, NatPublic} ==> a.gatewayHost.Some?)
    && (a.mode == NatZt ==> a.pylon.Some?)
    && (a.mode == Vpn ==> a.vpn.Some?)
    && (a.kind == Acs || !a.authRequired)
  }

  /** uq_network_access_default */
  ghost predicate DefaultsUnique(access: map<Id, Access>) {
    forall i, j | i in access && j in access && access[i].isDefault && access[j].isDefault &&
                  access[i].company == access[j].company && access[i].kind == access[j].kind :: i == j
  }

  /** uq_network_access_company_name */
  ghost predicate NamesUnique(access: map<Id, Access>) {
    forall i, j | i in access && j in access && access[i].company == access[j].company && access[i].name == access[j].name :: i == j
  }

  ghost predicate OldOk(db: Db) {
    && (forall i | i in db.access :: AccessOk(db.access[i]))
    && DefaultsUnique(db.access) && NamesUnique(db.access)
  }

  /** The CHECKs of provisioning_settings; comparing with NULL passes. */
  predicate SettingsOk(s: Settings) {
    && (s.proxy == Socks5 ==> s.proxyAddress.Some?)
    && (s.dial == Gateway ==> s.gatewayHost.Some?)
    && (s.pending.Some? && s.current.Some? ==> s.current != s.pending)
  }

  ghost predicate NewOk(db: Db) {
    && db.access == map[]
    && (forall i | i in db.credentials :: db.credentials[i].access.None?)
    && (forall c | c in db.settings :: SettingsOk(db.settings[c]))
  }

  /* ---------- The two axes ---------- */

  function DialOf(mode: Mode): DialTarget {
    if mode in {NatZt, NatPublic} then Gateway else Device
  }

  function ProxyOf(mode: Mode): ProxyKind {
    if mode in {NatZt, Vpn} then Socks5 else NoProxy
  }

  /** The proxy that a row dials through. */
  function AddressOf(a: Access): Option<string> {
    if a.mode == NatZt then a.pylon else if a.mode == Vpn then a.vpn else None
  }

  function ModeOf(dial: DialTarget, proxy: ProxyKind): Mode {
    if dial == Gateway && proxy == Socks5 then NatZt
    else if dial == Gateway then NatPublic
    else if proxy == Socks5 then Vpn
    else Direct
  }

  /** Modes and axes correspond one to one, apart from the mode that aborts. */
  lemma AxesAreModes(mode: Mode, dial: DialTarget, proxy: ProxyKind)
    ensures ModeOf(DialOf(mode), ProxyOf(mode)) == mode <==> mode != Tunnel
    ensures DialOf(ModeOf(dial, proxy)) == dial && ProxyOf(ModeOf(dial, proxy)) == proxy && ModeOf(dial, proxy) != Tunnel
  {
  }

  /* ---------- Upgrade ---------- */

  predicate IsDefault(access: map<Id, Access>, i: Id, company: Id, kind: Kind) {
    i in access && access[i].company == company && access[i].kind == kind && access[i].isDefault
  }

  function DefaultOf(access: map<Id, Access>, company: Id, kind: Kind): (row: Option<Access>)
    requires DefaultsUnique(access)
    ensures row.None? <==> forall i :: !IsDefault(access, i, company, kind)
    ensures forall i | IsDefault(access, i, company, kind) :: row == Some(access[i])
  {
    if exists i :: i in access && IsDefault(access, i, company, kind) then
      var i :| i in access && IsDefault(access, i, company, kind);
      Some(access[i])
    else None
  }

  /** The six folded columns of a company, over the row `s`. */
  function Folded(s: Settings, outbound: Option<Access>, acs: Option<Access>): Settings {
    s.(dial := if outbound.Some? then DialOf(outbound.value.mode) else Device,
       proxy := if outbound.Some? then ProxyOf(outbound.value.mode) else NoProxy,
       proxyAddress := if outbound.Some? then AddressOf(outbound.value) else None,
       gatewayHost := if outbound.Some? then outbound.value.gatewayHost else None,
       acsUrl := if acs.Some? then acs.value.acsUrl else None,
       authRequired := acs.Some? && acs.value.authRequired)
  }

  /** The new columns at their defaults, as when they are added or have been dropped. */
  function Blank(s: Settings): Settings {
    Settings(s.enabled, s.interval, Device, NoProxy, None, None, None, false, None, None)
  }

  /** The row inserted for a company that had none. */
  function NewSettings(): Settings {
    Settings(false, None, Device, NoProxy, None, None, None, false, None, None)
  }

  function Companies(access: map<Id, Access>): set<Id> {
    set i | i in access :: access[i].company
  }

  /** The fold: one row for each company that has a network_access row, or had settings. */
  function FoldedSettings(db: Db): map<Id, Settings>
    requires DefaultsUnique(db.access)
  {
    map c | c in db.settings.Keys + Companies(db.access) ::
      var s := if c in db.settings then Blank(db.settings[c]) else NewSettings();
      if c in Companies(db.access) then Folded(s, DefaultOf(db.access, c, Outbound), DefaultOf(db.access, c, Acs)) else s
  }

  /** Credentials of the ACS Inform window of company `c`. */
  function Candidates(db: Db, c: Id): set<Id> {
    set i | i in db.credentials && db.credentials[i].company == c && db.credentials[i].httpBasic && BoundToAcs(db, i)
  }

  predicate BoundToAcs(db: Db, i: Id)
    requires i in db.credentials
  {
    var a := db.credentials[i].access;
    a.Some? && a.value in db.access && db.access[a.value].kind == Acs && db.access[a.value].isDefault
  }

  predicate Newer(credentials: map<Id, Credential>, i: Id, j: Id)
    requires i in credentials && j in credentials
  {
    Later(credentials[i].created, i, credentials[j].created, j)
  }

  predicate IsNewest(credentials: map<Id, Credential>, ids: set<Id>, i: Id)
    requires ids <= credentials.Keys
  {
    i in ids && forall j | j in ids :: j == i || Newer(credentials, i, j)
  }

  lemma {:induction false} NewestExists(credentials: map<Id, Credential>, ids: set<Id>)
    requires ids <= credentials.Keys && ids != {}
    ensures exists i :: i in ids && IsNewest(credentials, ids, i)
  {
    NonEmpty(ids);
    var i :| i in ids;
    if ids == {i} {
      assert IsNewest(credentials, ids, i);
    } else {
      var rest := ids - {i};
      NewestExists(credentials, rest);
      var j :| j in rest && IsNewest(credentials, rest, j);
      var newest := if Newer(credentials, j, i) then j else i;
      forall k | k in ids ensures k == newest || Newer(credentials, newest, k) {
        assert k == i || k in rest;
      }
      assert IsNewest(credentials, ids, newest);
    }
  }

  /** The row with rank 1, if any. */
  function Newest(credentials: map<Id, Credential>, ids: set<Id>): (first: Option<Id>)
    requires ids <= credentials.Keys
    ensures first.None? <==> ids == {}
    ensures forall i | i in ids && IsNewest(credentials, ids, i) :: first == Some(i)
    ensures first.Some? ==> IsNewest(credentials, ids, first.value)
  {
    if ids == {} then None
    else
      NewestExists(credentials, ids);
      var i :| i in ids && IsNewest(credentials, ids, i);
      Some(i)
  }

  /** The row with rank 2, if any. */
  function SecondNewest(credentials: map<Id, Credential>, ids: set<Id>): Option<Id>
    requires ids <= credentials.Keys
  {
    var first := Newest(credentials, ids);
    if first.Some? then Newest(credentials, ids - {first.value}) else None
  }

  /** The credential pair of each company that has candidates. */
  function Paired(db: Db, settings: map<Id, Settings>): map<Id, Settings> {
    map c | c in settings ::
      var ids := Candidates(db, c);
      if ids != {} then
        settings[c].(current := Newest(db.credentials, ids), pending := SecondNewest(db.credentials, ids))
      else settings[c]
  }

  predicate HasTunnel(db: Db) {
    exists i :: i in db.access && db.access[i].mode == Tunnel
  }

  /** The binding column dropped, and later added again. */
  function Unbound(credentials: map<Id, Credential>): map<Id, Credential> {
    map i | i in credentials :: credentials[i].(access := None)
  }

  datatype FoldError = TunnelRows

  function Upgrade(db: Db): Result<Db, FoldError>
    requires DefaultsUnique(db.access)
  {
    if HasTunnel(db) then Err(TunnelRows) else Ok(Db(map[], Paired(db, FoldedSettings(db)), Unbound(db.credentials)))
  }

  lemma FoldedRowOk(db: Db, c: Id)
    requires OldOk(db) && c in FoldedSettings(db)
    ensures SettingsOk(FoldedSettings(db)[c]) && FoldedSettings(db)[c].current.None? && FoldedSettings(db)[c].pending.None?
  {
    var outbound := DefaultOf(db.access, c, Outbound);
    if outbound.Some? {
      var i :| IsDefault(db.access, i, c, Outbound);
      assert outbound.value == db.access[i];
    }
  }

  /** Rows that met the old CHECKs fold into settings that meet the new ones; the only way to fail is a tunnel row. */
  lemma UpgradeMeetsChecks(db: Db)
    requires OldOk(db)
    ensures Upgrade(db).Err? <==> exists i :: i in db.access && db.access[i].mode == Tunnel
    ensures Upgrade(db).Ok? ==> NewOk(Upgrade(db).value)
  {
    if !HasTunnel(db) {
      var after := Upgrade(db).value;
      forall c | c in after.settings ensures SettingsOk(after.settings[c]) {
        FoldedRowOk(db, c);
      }
    }
  }

  /** The fold never turns a company on: what had settings keeps its gate and interval, what had none starts disabled. */
  lemma FoldKeepsGates(db: Db, c: Id)
    requires DefaultsUnique(db.access) && !HasTunnel(db)
    ensures var after := Upgrade(db).value.settings;
            && (c in after <==> c in db.settings || exists i :: i in db.access && db.access[i].company == c)
            && (c in db.settings ==> after[c].enabled == db.settings[c].enabled && after[c].interval == db.settings[c].interval)
            && (c in after && c !in db.settings ==> !after[c].enabled && after[c].interval.None?)
  {
  }

  /** A company with settings and no network_access row gets the defaults of the new columns. */
  lemma NothingToFold(db: Db, c: Id)
    requires DefaultsUnique(db.access) && !HasTunnel(db) && c in db.settings
    requires forall i | i in db.access :: db.access[i].company != c
    ensures c in Upgrade(db).value.settings
    ensures var s := Upgrade(db).value.settings[c];
            && s.dial == Device && s.proxy == NoProxy && s.proxyAddress.None? && s.gatewayHost.None? && s.acsUrl.None? && !s.authRequired
            && s.current == Newest(db.credentials, Candidates(db, c)) && s.pending == SecondNewest(db.credentials, Candidates(db, c))
  {
    PairedRow(db, FoldedSettings(db), c);
  }

  /* ---------- Downgrade ---------- */

  function OutboundRow(c: Id, s: Settings): Access {
    Access(c, "Outbound", Outbound, ModeOf(s.dial, s.proxy), true, None, s.gatewayHost,
           if s.dial == Gateway && s.proxy == Socks5 then s.proxyAddress else None,
           if s.dial == Device && s.proxy == Socks5 then s.proxyAddress else None, false)
  }

  function AcsRow(c: Id, s: Settings): Access {
    Access(c, "ACS", Acs, Direct, true, s.acsUrl, None, None, None, s.authRequired)
  }

  /** The keys drawn for the two rows of each company. */
  datatype Keys = Keys(outbound: map<Id, Id>, acs: map<Id, Id>)

  ghost predicate KeysOk(keys: Keys, companies: set<Id>) {
    && keys.outbound.Keys == companies && keys.acs.Keys == companies
    && Injective(keys.outbound) && Injective(keys.acs) && Range(keys.outbound) !! Range(keys.acs)
  }

  /** Exactly one outbound and one ACS row for each company. */
  ghost predicate RowsRestored(settings: map<Id, Settings>, keys: Keys, access: map<Id, Access>) {
    && KeysOk(keys, settings.Keys)
    && access.Keys == Range(keys.outbound) + Range(keys.acs)
    && (forall c | c in settings :: access[keys.outbound[c]] == OutboundRow(c, settings[c]))
    && (forall c | c in settings :: access[keys.acs[c]] == AcsRow(c, settings[c]))
  }

  /** Credential `i` is in the pair of company `c`. */
  predicate InPair(settings: map<Id, Settings>, c: Id, i: Id) {
    c in settings && (settings[c].current == Some(i) || settings[c].pending == Some(i))
  }

  /** Each credential of a pair is bound to the ACS row of a company that holds it, and no other is bound. */
  ghost predicate Rebound(db: Db, keys: Keys, credentials: map<Id, Credential>)
    requires keys.acs.Keys == db.settings.Keys
  {
    && credentials.Keys == db.credentials.Keys
    && forall i | i in credentials ::
         && credentials[i] == db.credentials[i].(access := credentials[i].access)
         && if exists c :: InPair(db.settings, c, i) then BoundByHolder(db.settings, keys, i, credentials[i].access)
            else credentials[i].access.None?
  }

  ghost predicate BoundByHolder(settings: map<Id, Settings>, keys: Keys, i: Id, access: Option<Id>)
    requires keys.acs.Keys == settings.Keys
  {
    exists c :: InPair(settings, c, i) && access == Some(keys.acs[c])
  }

  ghost predicate IsDowngraded(db: Db, keys: Keys, after: Db) {
    && RowsRestored(db.settings, keys, after.access)
    && after.settings == (map c | c in db.settings :: Blank(db.settings[c]))
    && Rebound(db, keys, after.credentials)
  }

  /** Which company and kind a restored row belongs to. */
  lemma RestoredRow(settings: map<Id, Settings>, keys: Keys, access: map<Id, Access>, i: Id) returns (c: Id)
    requires RowsRestored(settings, keys, access) && i in access
    ensures c in settings && c == access[i].company
    ensures (i == keys.outbound[c] && access[i] == OutboundRow(c, settings[c])) ||
            (i == keys.acs[c] && access[i] == AcsRow(c, settings[c]))
  {
    if i in Range(keys.outbound) {
      c :| c in keys.outbound && keys.outbound[c] == i;
    } else {
      c :| c in keys.acs && keys.acs[c] == i;
    }
  }

  /** Settings that met the new CHECKs unfold into rows that meet the old ones. */
  lemma DowngradeMeetsChecks(db: Db, keys: Keys, after: Db)
    requires NewOk(db) && IsDowngraded(db, keys, after)
    ensures OldOk(after) && !HasTunnel(after)
  {
    forall i | i in after.access ensures AccessOk(after.access[i]) && after.access[i].mode != Tunnel {
      var c := RestoredRow(db.settings, keys, after.access, i);
      AxesAreModes(Direct, db.settings[c].dial, db.settings[c].proxy);
    }
    forall i, j | i in after.access && j in after.access && after.access[i].company == after.access[j].company &&
                  (after.access[i].kind == after.access[j].kind || after.access[i].name == after.access[j].name)
      ensures i == j
    {
      var c := RestoredRow(db.settings, keys, after.access, i);
      var d := RestoredRow(db.settings, keys, after.access, j);
      NamesDiffer(c, db.settings[c]);
    }
  }

  lemma NamesDiffer(c: Id, s: Settings)
    ensures OutboundRow(c, s).name != AcsRow(c, s).name && OutboundRow(c, s).kind != AcsRow(c, s).kind
  {
    assert |OutboundRow(c, s).name| == 8 && |AcsRow(c, s).name| == 3;
  }

  lemma DefaultsAfter(db: Db, keys: Keys, after: Db, c: Id)
    requires NewOk(db) && IsDowngraded(db, keys, after) && c in db.settings
    ensures DefaultsUnique(after.access)
    ensures DefaultOf(after.access, c, Outbound) == Some(OutboundRow(c, db.settings[c]))
    ensures DefaultOf(after.access, c, Acs) == Some(AcsRow(c, db.settings[c]))
  {
    DowngradeMeetsChecks(db, keys, after);
    assert IsDefault(after.access, keys.outbound[c], c, Outbound) by {
      assert keys.outbound[c] in Range(keys.outbound);
    }
    assert IsDefault(after.access, keys.acs[c], c, Acs) by {
      assert keys.acs[c] in Range(keys.acs);
    }
  }

  /* ---------- Up and down again ---------- */

  /** `p` dials as `o` did; without an outbound row, directly. */
  predicate DialsAs(o: Option<Access>, p: Access) {
    if o.Some? then p.mode == o.value.mode && p.gatewayHost == o.value.gatewayHost && AddressOf(p) == AddressOf(o.value)
    else p.mode == Direct && p.gatewayHost.None?
  }

  predicate AnswersAs(a: Option<Access>, b: Access) {
    if a.Some? then b.acsUrl == a.value.acsUrl && b.authRequired == a.value.authRequired
    else b.acsUrl.None? && !b.authRequired
  }

  lemma RowsFromFolded(c: Id, s: Settings, outbound: Option<Access>, acs: Option<Access>)
    requires outbound.Some? ==> outbound.value.mode != Tunnel
    ensures DialsAs(outbound, OutboundRow(c, Folded(s, outbound, acs)))
    ensures AnswersAs(acs, AcsRow(c, Folded(s, outbound, acs)))
  {
    if outbound.Some? {
      AxesAreModes(outbound.value.mode, Device, NoProxy);
    }
  }

  lemma PairsLeaveRows(c: Id, s: Settings, current: Option<Id>, pending: Option<Id>)
    ensures OutboundRow(c, s.(current := current, pending := pending)) == OutboundRow(c, s)
    ensures AcsRow(c, s.(current := current, pending := pending)) == AcsRow(c, s)
  {
  }

  /** The row of a company after the fold, before its pair. */
  lemma UpgradedRow(db: Db, c: Id) returns (s: Settings)
    requires DefaultsUnique(db.access) && !HasTunnel(db) && c in Companies(db.access)
    ensures c in Upgrade(db).value.settings
    ensures var outbound, acs := DefaultOf(db.access, c, Outbound), DefaultOf(db.access, c, Acs);
            var ids := Candidates(db, c);
            Upgrade(db).value.settings[c] ==
            Folded(s, outbound, acs).(current := Newest(db.credentials, ids), pending := SecondNewest(db.credentials, ids))
  {
    s := if c in db.settings then Blank(db.settings[c]) else NewSettings();
    PairedRow(db, FoldedSettings(db), c);
  }

  lemma NoTunnelDefault(db: Db, c: Id)
    requires DefaultsUnique(db.access) && !HasTunnel(db)
    ensures DefaultOf(db.access, c, Outbound).Some? ==> DefaultOf(db.access, c, Outbound).value.mode != Tunnel
  {
    if DefaultOf(db.access, c, Outbound).Some? {
      var i :| IsDefault(db.access, i, c, Outbound);
    }
  }

  /** Upgrade then downgrade: each default row comes back with what it dialled through, and nothing else. */
  lemma UpThenDown(db: Db, keys: Keys, after: Db, c: Id)
    requires OldOk(db) && !HasTunnel(db) && IsDowngraded(Upgrade(db).value, keys, after)
    requires c in Companies(db.access)
    ensures DefaultsUnique(after.access)
    ensures DefaultOf(after.access, c, Outbound).Some? && DefaultOf(after.access, c, Acs).Some?
    ensures DialsAs(DefaultOf(db.access, c, Outbound), DefaultOf(after.access, c, Outbound).value)
    ensures AnswersAs(DefaultOf(db.access, c, Acs), DefaultOf(after.access, c, Acs).value)
  {
    var up := Upgrade(db).value;
    UpgradeMeetsChecks(db);
    var s := UpgradedRow(db, c);
    DefaultsAfter(up, keys, after, c);
    NoTunnelDefault(db, c);
    var folded := Folded(s, DefaultOf(db.access, c, Outbound), DefaultOf(db.access, c, Acs));
    PairsLeaveRows(c, folded, up.settings[c].current, up.settings[c].pending);
    RowsFromFolded(c, s, DefaultOf(db.access, c, Outbound), DefaultOf(db.access, c, Acs));
  }

  /** A row comes back whole exactly when it held nothing its mode does not use. */
  lemma OutboundRowRestoredIff(a: Access, s: Settings)
    requires a.kind == Outbound && a.mode != Tunnel && AccessOk(a)
    ensures var b := OutboundRow(a.company, Folded(s, Some(a), None));
            (b.pylon == a.pylon && b.vpn == a.vpn && b.acsUrl == a.acsUrl) <==>
            (a.mode != NatZt ==> a.pylon.None?) && (a.mode != Vpn ==> a.vpn.None?) && a.acsUrl.None?
  {
  }

  predicate IsHeld(settings: map<Id, Settings>, i: Id) {
    exists d :: d in settings && InPair(settings, d, i)
  }

  /** HTTP_BASIC credentials of company `c` that are in the pair of some company, its own or another. */
  function Held(db: Db, c: Id): set<Id> {
    set i | i in db.credentials && db.credentials[i].company == c && db.credentials[i].httpBasic && IsHeld(db.settings, i)
  }

  /** Downgrade binds what is in a pair, and the ranking finds it by company. */
  lemma CandidatesAfter(db: Db, keys: Keys, after: Db, c: Id)
    requires NewOk(db) && IsDowngraded(db, keys, after)
    ensures Candidates(after, c) == Held(db, c)
  {
    forall i | i in db.credentials ensures BoundToAcs(after, i) <==> IsHeld(db.settings, i) {
      BoundIffHeld(db, keys, after, i);
    }
  }

  lemma BoundIffHeld(db: Db, keys: Keys, after: Db, i: Id)
    requires IsDowngraded(db, keys, after) && i in db.credentials
    ensures i in after.credentials && (BoundToAcs(after, i) <==> IsHeld(db.settings, i))
  {
    if d :| d in db.settings && InPair(db.settings, d, i) {
      assert BoundByHolder(db.settings, keys, i, after.credentials[i].access);
      var e :| InPair(db.settings, e, i) && after.credentials[i].access == Some(keys.acs[e]);
      DefaultIsRestored(db.settings, keys, after.access, e, keys.acs[e]);
    }
  }

  /** The pair of a company in the order of the ranking: nothing pending, or a current one that is newer. */
  predicate PairRanked(credentials: map<Id, Credential>, s: Settings) {
    s.pending.None? ||
    (s.current.Some? && s.current.value in credentials && s.pending.value in credentials &&
     Newer(credentials, s.current.value, s.pending.value))
  }

  /** What the proxy settings say that is in use. */
  function Live(s: Settings): Settings {
    s.(proxyAddress := if s.proxy == Socks5 then s.proxyAddress else None)
  }

  lemma NoTunnelAfter(db: Db, keys: Keys, after: Db)
    requires NewOk(db) && IsDowngraded(db, keys, after)
    ensures !HasTunnel(after)
  {
    DowngradeMeetsChecks(db, keys, after);
  }

  lemma SettingsAfter(db: Db, keys: Keys, after: Db, c: Id)
    requires NewOk(db) && IsDowngraded(db, keys, after) && c in db.settings
    ensures after.settings.Keys == db.settings.Keys == Companies(after.access) && after.settings[c] == Blank(db.settings[c])
    ensures SettingsOk(db.settings[c])
  {
    CompaniesAfter(db, keys, after);
  }

  lemma FoldedAfter(db: Db, keys: Keys, after: Db, c: Id)
    requires NewOk(db) && IsDowngraded(db, keys, after) && c in db.settings
    ensures DefaultsUnique(after.access) && !HasTunnel(after)
    ensures FoldedSettings(after).Keys == db.settings.Keys
    ensures FoldedSettings(after)[c] == Live(db.settings[c]).(current := None, pending := None)
  {
    DefaultsAfter(db, keys, after, c);
    NoTunnelAfter(db, keys, after);
    SettingsAfter(db, keys, after, c);
    FoldedFrom(after, c, db.settings[c]);
  }

  lemma FoldedFrom(after: Db, c: Id, s: Settings)
    requires DefaultsUnique(after.access) && c in Companies(after.access) && SettingsOk(s)
    requires c in after.settings && after.settings[c] == Blank(s) && Companies(after.access) <= after.settings.Keys
    requires DefaultOf(after.access, c, Outbound) == Some(OutboundRow(c, s))
    requires DefaultOf(after.access, c, Acs) == Some(AcsRow(c, s))
    ensures FoldedSettings(after).Keys == after.settings.Keys
    ensures FoldedSettings(after)[c] == Live(s).(current := None, pending := None)
  {
    FoldsBack(s, c);
    FoldedRow(after, c);
  }

  lemma FoldedRow(db: Db, c: Id)
    requires DefaultsUnique(db.access) && c in Companies(db.access) && c in db.settings
    ensures FoldedSettings(db).Keys == db.settings.Keys + Companies(db.access)
    ensures FoldedSettings(db)[c] ==
            Folded(Blank(db.settings[c]), DefaultOf(db.access, c, Outbound), DefaultOf(db.access, c, Acs))
  {
  }

  /** The pair is ranked among the candidates, or stays empty without any. */
  lemma PairedRow(db: Db, settings: map<Id, Settings>, c: Id)
    requires c in settings && settings[c].current.None? && settings[c].pending.None?
    ensures Paired(db, settings).Keys == settings.Keys
    ensures var ids := Candidates(db, c);
            Paired(db, settings)[c] ==
            settings[c].(current := Newest(db.credentials, ids), pending := SecondNewest(db.credentials, ids))
  {
  }

  /** Going down changes which credentials are bound, not when they were made. */
  lemma SameRanking(a: map<Id, Credential>, b: map<Id, Credential>, ids: set<Id>)
    requires ids <= a.Keys && ids <= b.Keys && forall i | i in ids :: a[i].created == b[i].created
    ensures Newest(a, ids) == Newest(b, ids) && SecondNewest(a, ids) == SecondNewest(b, ids)
  {
    SameNewest(a, b, ids);
    var first := Newest(a, ids);
    if first.Some? {
      SameNewest(a, b, ids - {first.value});
    }
  }

  lemma SameNewest(a: map<Id, Credential>, b: map<Id, Credential>, ids: set<Id>)
    requires ids <= a.Keys && ids <= b.Keys && forall i | i in ids :: a[i].created == b[i].created
    ensures Newest(a, ids) == Newest(b, ids)
  {
    assert forall i | i in ids :: IsNewest(a, ids, i) <==> IsNewest(b, ids, i);
  }

  /** A company's pair is the two newest of its held credentials. */
  predicate PairIsNewest(db: Db, c: Id)
    requires c in db.settings
  {
    && db.settings[c].current == Newest(db.credentials, Held(db, c))
    && db.settings[c].pending == SecondNewest(db.credentials, Held(db, c))
  }

  /** Downgrade then upgrade, on any database that meets the CHECKs: the whole new row of a company. */
  lemma DownThenUpRow(db: Db, keys: Keys, after: Db, c: Id)
    requires NewOk(db) && IsDowngraded(db, keys, after) && c in db.settings
    ensures DefaultsUnique(after.access) && Upgrade(after).Ok? && Upgrade(after).value.settings.Keys == db.settings.Keys
    ensures Upgrade(after).value.settings[c] ==
            Live(db.settings[c]).(current := Newest(db.credentials, Held(db, c)), pending := SecondNewest(db.credentials, Held(db, c)))
  {
    FoldedAfter(db, keys, after, c);
    PairedRow(after, FoldedSettings(after), c);
    CandidatesAfter(db, keys, after, c);
    forall i | i in Held(db, c) ensures i in after.credentials && after.credentials[i].created == db.credentials[i].created {
    }
    SameRanking(after.credentials, db.credentials, Held(db, c));
  }

  /**
   So it is the identity but for a proxy address without proxy, exactly when each company's pair is the two
   newest of its credentials that any pair holds.
   */
  lemma DownThenUp(db: Db, keys: Keys, after: Db, c: Id)
    requires NewOk(db) && IsDowngraded(db, keys, after) && c in db.settings
    ensures DefaultsUnique(after.access) && Upgrade(after).Ok? && Upgrade(after).value.settings.Keys == db.settings.Keys
    ensures Upgrade(after).value.credentials == db.credentials
    ensures var s, t := db.settings[c], Upgrade(after).value.settings[c];
            && t == Live(s).(current := t.current, pending := t.pending)
            && (t == Live(s) <==> PairIsNewest(db, c))
  {
    DownThenUpRow(db, keys, after, c);
    UnboundAgain(db, keys, after);
  }

  /** Pairs hold HTTP_BASIC credentials of their own company. */
  ghost predicate PairsOwned(db: Db) {
    forall c, i | InPair(db.settings, c, i) :: i in db.credentials && db.credentials[i].company == c && db.credentials[i].httpBasic
  }

  lemma HeldIsOwnPair(db: Db, c: Id)
    requires PairsOwned(db)
    ensures forall i :: i in Held(db, c) <==> InPair(db.settings, c, i)
  {
    forall i | InPair(db.settings, c, i) ensures IsHeld(db.settings, i) {
    }
    forall i | i in Held(db, c) ensures InPair(db.settings, c, i) {
      var d :| d in db.settings && InPair(db.settings, d, i);
    }
  }

  /** When pairs are owned, that means that nothing is pending or the current credential is the newer one. */
  lemma OwnedPairIsNewestIff(db: Db, c: Id)
    requires PairsOwned(db) && c in db.settings && SettingsOk(db.settings[c])
    ensures PairIsNewest(db, c) <==> PairRanked(db.credentials, db.settings[c])
  {
    var s, ids := db.settings[c], Held(db, c);
    HeldIsOwnPair(db, c);
    assert s.current.Some? ==> InPair(db.settings, c, s.current.value) && s.current.value in ids;
    assert s.pending.Some? ==> InPair(db.settings, c, s.pending.value) && s.pending.value in ids;
    TwoRanked(db.credentials, ids, s);
  }

  /** A company whose current credential, 10, is older than the pending one, 11. */
  function OlderCurrent(): Db {
    Db(map[], map[1 := Settings(true, None, Device, NoProxy, None, None, None, true, Some(10), Some(11))],
       map[10 := Credential(1, 0, true, None), 11 := Credential(1, 1, true, None)])
  }

  /** Going down and up swaps its pair. */
  lemma OlderCurrentIsSwapped(keys: Keys, after: Db)
    requires IsDowngraded(OlderCurrent(), keys, after)
    ensures NewOk(OlderCurrent()) && DefaultsUnique(after.access) && Upgrade(after).Ok? && 1 in Upgrade(after).value.settings
    ensures Upgrade(after).value.settings[1].current == Some(11) && Upgrade(after).value.settings[1].pending == Some(10)
  {
    OlderCurrentHolds();
    OlderCurrentRanks();
    DownThenUpRow(OlderCurrent(), keys, after, 1);
  }

  lemma OlderCurrentHolds()
    ensures NewOk(OlderCurrent()) && 1 in OlderCurrent().settings && Held(OlderCurrent(), 1) == {10, 11}
  {
    var db := OlderCurrent();
    assert InPair(db.settings, 1, 10) && InPair(db.settings, 1, 11);
    forall i ensures i in Held(db, 1) <==> i in {10, 11} {
    }
  }

  lemma OlderCurrentRanks()
    ensures var credentials := OlderCurrent().credentials;
            {10, 11} <= credentials.Keys && Newest(credentials, {10, 11}) == Some(11) && SecondNewest(credentials, {10, 11}) == Some(10)
  {
    var credentials := OlderCurrent().credentials;
    assert IsNewest(credentials, {10, 11}, 11);
    assert {10, 11} - {11} == {10};
    assert IsNewest(credentials, {10}, 10);
  }

  lemma TwoRanked(credentials: map<Id, Credential>, ids: set<Id>, s: Settings)
    requires ids <= credentials.Keys && (s.current.Some? && s.pending.Some? ==> s.current != s.pending)
    requires forall i :: i in ids <==> s.current == Some(i) || s.pending == Some(i)
    ensures s.current == Newest(credentials, ids) && s.pending == SecondNewest(credentials, ids) <==> PairRanked(credentials, s)
  {
    var all := (if s.current.Some? then {s.current.value} else {}) + (if s.pending.Some? then {s.pending.value} else {});
    assert ids == all by {
      forall i ensures i in ids <==> i in all {
      }
    }
    if s.pending.None? {
      if s.current.Some? {
        assert ids - {s.current.value} == {};
        assert IsNewest(credentials, ids, s.current.value);
      }
    } else if s.current.Some? {
      var i, j := s.current.value, s.pending.value;
      assert ids - {i} == {j};
      assert IsNewest(credentials, {j}, j);
      assert IsNewest(credentials, ids, i) <==> Newer(credentials, i, j);
    }
  }

  lemma FoldsBack(s: Settings, c: Id)
    requires SettingsOk(s)
    ensures Folded(Blank(Blank(s)), Some(OutboundRow(c, s)), Some(AcsRow(c, s))) == Live(s).(current := None, pending := None)
  {
  }

  lemma UnboundAgain(db: Db, keys: Keys, after: Db)
    requires NewOk(db) && IsDowngraded(db, keys, after)
    ensures Unbound(after.credentials) == db.credentials
  {
    forall i | i in db.credentials ensures Unbound(after.credentials)[i] == db.credentials[i] {
      assert i in after.credentials;
    }
  }

  lemma CompaniesAfter(db: Db, keys: Keys, after: Db)
    requires IsDowngraded(db, keys, after)
    ensures Companies(after.access) == db.settings.Keys
  {
    forall i | i in after.access ensures after.access[i].company in db.settings {
      var c := RestoredRow(db.settings, keys, after.access, i);
    }
    forall c | c in db.settings ensures c in Companies(after.access) {
      var i := keys.acs[c];
      assert i in Range(keys.acs) && i in after.access && after.access[i].company == c;
    }
  }

  lemma RankedAreMembers(credentials: map<Id, Credential>, ids: set<Id>)
    requires ids <= credentials.Keys
    ensures var first, second := Newest(credentials, ids), SecondNewest(credentials, ids);
            (first.Some? ==> first.value in ids) && (second.Some? ==> second.value in ids)
  {
  }

  /** The folded pairs belong to their company. */
  lemma UpgradeOwnsPairs(db: Db, c: Id, i: Id)
    requires OldOk(db) && !HasTunnel(db) && InPair(Upgrade(db).value.settings, c, i)
    ensures i in Candidates(db, c)
  {
    FoldedRowOk(db, c);
    PairedRow(db, FoldedSettings(db), c);
    RankedAreMembers(db.credentials, Candidates(db, c));
  }

  lemma UpgradePairsOwned(db: Db)
    requires OldOk(db) && !HasTunnel(db)
    ensures PairsOwned(Upgrade(db).value)
  {
    var up := Upgrade(db).value;
    forall c, i | InPair(up.settings, c, i) ensures i in up.credentials && up.credentials[i].company == c && up.credentials[i].httpBasic {
      UpgradeOwnsPairs(db, c, i);
    }
  }

  /** The credentials bound after going up and down are the two newest that were. */
  lemma TwoNewestRebound(db: Db, keys: Keys, after: Db, c: Id)
    requires OldOk(db) && !HasTunnel(db) && IsDowngraded(Upgrade(db).value, keys, after) && c in Companies(db.access)
    ensures var ids := Candidates(db, c);
            forall i :: i in Candidates(after, c) <==>
              Some(i) == Newest(db.credentials, ids) || Some(i) == SecondNewest(db.credentials, ids)
  {
    UpgradeMeetsChecks(db);
    UpgradePairsOwned(db);
    var s := UpgradedRow(db, c);
    OwnPairRebound(Upgrade(db).value, keys, after, c);
  }

  lemma OwnPairRebound(db: Db, keys: Keys, after: Db, c: Id)
    requires NewOk(db) && PairsOwned(db) && IsDowngraded(db, keys, after) && c in db.settings
    ensures forall i :: i in Candidates(after, c) <==> db.settings[c].current == Some(i) || db.settings[c].pending == Some(i)
  {
    CandidatesAfter(db, keys, after, c);
    HeldIsOwnPair(db, c);
  }

  /* ---------- The migration as it runs ---------- */

  function RestoredFor(kind: Kind, c: Id, s: Settings): Access {
    if kind == Outbound then OutboundRow(c, s) else AcsRow(c, s)
  }

  /** The rows of `kind` for the companies `done`, under `keys`, next to those of `before`. */
  ghost predicate RowsInserted(before: map<Id, Access>, done: set<Id>, settings: map<Id, Settings>, kind: Kind,
                               keys: map<Id, Id>, access: map<Id, Access>) {
    && done <= settings.Keys && keys.Keys == done && Injective(keys) && Range(keys) !! before.Keys
    && access.Keys == before.Keys + Range(keys)
    && (forall i | i in before :: access[i] == before[i])
    && (forall c | c in done :: access[keys[c]] == RestoredFor(kind, c, settings[c]))
  }

  lemma InsertOneRow(before: map<Id, Access>, done: set<Id>, settings: map<Id, Settings>, kind: Kind,
                     keys: map<Id, Id>, access: map<Id, Access>, c: Id, i: Id)
    requires RowsInserted(before, done, settings, kind, keys, access)
    requires c in settings && c !in done && i !in access
    ensures RowsInserted(before, done + {c}, settings, kind, keys[c := i], access[i := RestoredFor(kind, c, settings[c])])
  {
    RangeExtends(keys, c, i);
    InjectiveExtends(keys, c, i);
    forall d | d in done ensures keys[d] != i {
      assert keys[d] in Range(keys);
    }
  }

  lemma BothInserted(settings: map<Id, Settings>, outbound: map<Id, Id>, acs: map<Id, Id>, inserted: map<Id, Access>, access: map<Id, Access>)
    requires RowsInserted(map[], settings.Keys, settings, Outbound, outbound, inserted)
    requires RowsInserted(inserted, settings.Keys, settings, Acs, acs, access)
    ensures RowsRestored(settings, Keys(outbound, acs), access)
  {
    assert inserted.Keys == Range(outbound);
    assert access.Keys == Range(outbound) + Range(acs);
    forall c | c in settings ensures access[outbound[c]] == OutboundRow(c, settings[c]) {
      var i := outbound[c];
      assert i in Range(outbound) && i in inserted;
      assert access[i] == inserted[i] == RestoredFor(Outbound, c, settings[c]);
    }
  }

  /** The default ACS row of a company after the rows are restored. */
  lemma DefaultIsRestored(settings: map<Id, Settings>, keys: Keys, access: map<Id, Access>, c: Id, a: Id)
    requires RowsRestored(settings, keys, access) && c in settings
    ensures keys.acs[c] in access && IsDefault(access, keys.acs[c], c, Acs)
    ensures IsDefault(access, a, c, Acs) ==> a == keys.acs[c]
  {
    assert keys.acs[c] in Range(keys.acs);
    if IsDefault(access, a, c, Acs) {
      var d := RestoredRow(settings, keys, access, a);
    }
  }

  lemma OnlyDefault(settings: map<Id, Settings>, keys: Keys, access: map<Id, Access>, c: Id)
    requires RowsRestored(settings, keys, access) && c in settings
    ensures keys.acs[c] in access && IsDefault(access, keys.acs[c], c, Acs)
    ensures forall a | IsDefault(access, a, c, Acs) :: a == keys.acs[c]
  {
    DefaultIsRestored(settings, keys, access, c, keys.acs[c]);
    forall a | IsDefault(access, a, c, Acs) ensures a == keys.acs[c] {
      DefaultIsRestored(settings, keys, access, c, a);
    }
  }

  class TransportTables {
    var access: map<Id, Access>
    var settings: map<Id, Settings>
    var credentials: map<Id, Credential>

    function State(): Db
      reads this
    {
      Db(access, settings, credentials)
    }

    constructor (db: Db)
      ensures State() == db
    {
      access, settings, credentials := db.access, db.settings, db.credentials;
    }

    /** Adds the columns, folds, carries the pairs over, and drops the binding and the table. */
    method Up() returns (error: Option<FoldError>)
      requires DefaultsUnique(access)
      modifies this
      ensures error.Some? <==> HasTunnel(old(State()))
      ensures error.Some? ==> State() == old(State())
      ensures error.None? ==> Upgrade(old(State())) == Ok(State())
      ensures OldOk(old(State())) && error.None? ==> NewOk(State())
    {
      if OldOk(State()) {
        UpgradeMeetsChecks(State());
      }
      if HasTunnel(State()) {
        return Some(TunnelRows);
      }
      var before := State();
      settings := FoldedSettings(before);
      settings := Paired(before, settings);
      credentials := Unbound(credentials);
      access := map[];
      error := None;
    }

    /** INSERT ... SELECT of one row for each company. */
    method InsertRows(kind: Kind) returns (ghost keys: map<Id, Id>)
      modifies `access
      ensures RowsInserted(old(access), settings.Keys, settings, kind, keys, access)
    {
      var left := settings.Keys;
      ghost var done := {};
      keys := map[];
      assert Range(keys) == {};
      while left != {}
        invariant Splits(settings.Keys, left, done)
        invariant RowsInserted(old(access), done, settings, kind, keys, access)
        decreases |left|
      {
        NonEmpty(left);
        var c :| c in left;
        var i := FreshId(access.Keys);
        InsertOneRow(old(access), done, settings, kind, keys, access, c, i);
        access, keys := access[i := RestoredFor(kind, c, settings[c])], keys[c := i];
        OneLess(settings.Keys, left, done, c);
        left, done := left - {c}, done + {c};
      }
      assert done == settings.Keys;
    }

    /** Binds credential `i`, if a pair holds it. */
    method RebindRow(ghost keys: Keys, i: Id)
      requires RowsRestored(settings, keys, access)
      requires i in credentials && credentials[i].access.None?
      modifies `credentials
      ensures credentials.Keys == old(credentials).Keys && forall j | j in credentials && j != i :: credentials[j] == old(credentials)[j]
      ensures ReboundRow(settings, keys, old(credentials)[i], i, credentials[i])
    {
      if c :| c in settings && InPair(settings, c, i) {
        OnlyDefault(settings, keys, access, c);
        var a :| a in access && IsDefault(access, a, c, Acs);
        BoundRow(settings, keys, credentials[i], i, c, a);
        credentials := credentials[i := credentials[i].(access := Some(a))];
      }
    }

    /** Binds the credentials of every pair to the ACS row of a company that holds them. */
    method Rebind(ghost keys: Keys)
      requires RowsRestored(settings, keys, access)
      requires forall i | i in credentials :: credentials[i].access.None?
      modifies `credentials
      ensures Rebound(Db(access, settings, old(credentials)), keys, credentials)
    {
      var left := credentials.Keys;
      while left != {}
        invariant left <= credentials.Keys == old(credentials).Keys
        invariant forall i | i in left :: credentials[i] == old(credentials)[i]
        invariant forall i | i in credentials && i !in left :: ReboundRow(settings, keys, old(credentials)[i], i, credentials[i])
        decreases |left|
      {
        NonEmpty(left);
        var i :| i in left;
        RebindRow(keys, i);
        left := left - {i};
      }
    }

    /** Drops the CHECKs, restores both rows of each company, rebinds the pairs, and drops the columns. */
    method Down() returns (ghost keys: Keys)
      requires NewOk(State())
      modifies this
      ensures IsDowngraded(old(State()), keys, State()) && OldOk(State())
    {
      ghost var db := State();
      access := map[];
      ghost var outbound := InsertRows(Outbound);
      ghost var inserted := access;
      ghost var acs := InsertRows(Acs);
      keys := Keys(outbound, acs);
      BothInserted(settings, outbound, acs, inserted, access);
      Rebind(keys);
      settings := map c | c in settings :: Blank(settings[c]);
      assert IsDowngraded(db, keys, State());
      DowngradeMeetsChecks(db, keys, State());
    }
  }

  ghost predicate ReboundRow(settings: map<Id, Settings>, keys: Keys, before: Credential, i: Id, after: Credential)
    requires keys.acs.Keys == settings.Keys
  {
    && after == before.(access := after.access)
    && if exists c :: InPair(settings, c, i) then BoundByHolder(settings, keys, i, after.access) else after.access.None?
  }

  lemma BoundRow(settings: map<Id, Settings>, keys: Keys, before: Credential, i: Id, c: Id, a: Id)
    requires keys.acs.Keys == settings.Keys && InPair(settings, c, i) && a == keys.acs[c]
    ensures ReboundRow(settings, keys, before, i, before.(access := Some(a)))
  {
    assert BoundByHolder(settings, keys, i, Some(a));
  }
}
