/**
 * parse_config, the running-config reader of the nttbp-*.py scripts.
 *
 * Outside a context, a line either bumps the session-ACL or user-role
 * counter or opens a context by creating a profile keyed by the text after
 * the context keyword with every '"' removed (ap-group and ap-name keys
 * lowercased). Inside a context lines are stripped, a '!' closes the
 * context, and the recognised keywords set fields of the open profile.
 * A reference to an undefined profile raises KeyError, except for
 * arm-profile, whose error is only reported.
 *
 * The five scripts carry the same reader with differences, selected here by
 * a Variant. A profile is a value; the profile being filled is the open
 * context, and it is written into its dictionary when its context closes or
 * the input ends. Nothing reads a profile while its own context is open, and
 * every reference is taken from a closed profile, so this gives the same
 * dictionaries as the scripts' shared objects. A VAP carries the number of
 * the header that created it, because one script compares VAP objects by
 * identity.
 */
module AosConfig {
  import opened Wrappers
  import opened Text

  /** Which script's parse_config. */
  datatype Variant =
    | Summarize               // nttbp-summarize.py
    | Functinos(confVer: int) // nttbp-summarize-functinos.py, with its conf_ver argument
    | ApSys                   // nttbp-apsys.py
    | SameApGroup             // nttbp-sameapgroup.py
    | Summarize2              // nttbp-summarize2.py

  /** The variant with aaa, ht-ssid, regulatory-domain and dot1x contexts and profile objects for them. */
  predicate Rich(v: Variant) { v.Functinos? }

  /** The variants that keep ap system-profiles with their session ACL and the ap-system-profile lines. */
  predicate KeepsApSys(v: Variant) { v.ApSys? || v.SameApGroup? }

  /** The variants that read cellular-handoff-assist. */
  predicate KeepsCha(v: Variant) { v.Functinos? || v.Summarize2? }

  datatype HtSsid = HtSsid(name: string, ht: bool, vht: bool, eighty: bool, forty: bool)

  datatype Ssid = Ssid(name: string, ssid: string, opmode: string, stealth: bool, disabled: bool,
                       htSsid: Option<HtSsid>, probeThresh: bool, authThresh: bool, advApName: bool)

  datatype Dot1x = Dot1x(name: string, reauth: bool, deleteKeycache: bool)

  datatype Aaa = Aaa(name: string, mac: bool, dot1x: Option<Dot1x>, initRole: string, xmlApi: bool,
                     acct: bool, interimAcct: bool, userDeriv: bool, l2FailThru: bool)

  /** A VAP's aaa-profile: unset, a bare name, or the profile itself. */
  datatype AaaRef = NoAaa | AaaName(n: string) | AaaProf(p: Aaa)

  datatype Vap = Vap(id: nat, name: string, ssidProf: Option<Ssid>, aaa: AaaRef, fwdMode: string, vlan: int,
                     disabled: bool, denyIntUser: bool, bcastFilterAll: bool, cha: bool)

  datatype Arm = Arm(name: string, disabled: bool, cm: bool, cmCustom: bool)

  /** A dot11a or dot11g radio profile. */
  datatype Radio = Radio(name: string, armProf: Option<Arm>, radio: bool)

  datatype RegDom = RegDom(name: string, chset11a: string, band: Option<string>)

  /** An ap-name's regulatory-domain-profile: unset, a bare name, or the profile itself. */
  datatype RegRef = NoReg | RegName(n: string) | RegProf(p: RegDom)

  datatype ApGroup = ApGroup(name: string, vaps: seq<Vap>, dot11a: Option<Radio>, dot11g: Option<Radio>,
                             reg: Option<RegDom>, apSys: string, conf: string)

  datatype ApName = ApName(name: string, vaps: seq<Vap>, excludeVaps: seq<string>, dot11a: Option<Radio>,
                           dot11g: Option<Radio>, reg: RegRef, apSys: Option<string>, misc: seq<string>)

  datatype ApSysProf = ApSysProf(name: string, sesAcl: Option<string>)

  /** AOSConfig */
  datatype Config = Config(
    name: string, numUserRoles: nat, numAcls: nat,
    ssids: map<string, Ssid>, vaps: map<string, Vap>,
    apGroups: map<string, ApGroup>, apNames: map<string, ApName>,
    arms: map<string, Arm>, dot11as: map<string, Radio>, dot11gs: map<string, Radio>,
    apSystems: map<string, ApSysProf>, aaas: map<string, Aaa>, htSsids: map<string, HtSsid>,
    regDoms: map<string, RegDom>, dot1xs: map<string, Dot1x>)

  /** `in_cont` together with the profile it is filling. */
  datatype Context =
    | Outside
    | InApSys(sys: ApSysProf)
    | InSsid(ssid: Ssid)
    | InVap(vap: Vap)
    | InApGroup(key: string, group: ApGroup, aliased: bool)   // aliased: also stored under the group's own name
    | InApName(key: string, ap: ApName, stored: bool)         // stored: a line has put it into ap_names
    | InArm(arm: Arm)
    | InDot11a(a: Radio)
    | InDot11g(g: Radio)
    | InAaa(aaa: Aaa)
    | InHtSsid(ht: HtSsid)
    | InRegDom(reg: RegDom)
    | InDot1x(dot1x: Dot1x)

  datatype ParseState = ParseState(cfg: Config, ctx: Context, nextId: nat)

  /** What makes parse_config raise: a KeyError on an undefined profile, or the ValueError of int() on a vlan. */
  datatype ConfigError = Undefined(kind: string, name: string) | BadVlan(text: string)

  /*
   * Regulatory-domain bands
   */

  const W52: string := "36,40,44,48,36-40,44-48,"
  const W53: string := "52,56,60,64,52-56,60-64,"
  const W56: string := "100,104,108,112,116,120,124,128,132,136,140,100-104,108-112,116-120,124-128,132-136,"
  const W5253: string := "36,40,44,48,52,56,60,64,36-40,44-48,52-56,60-64,"
  const W5256: string := "36,40,44,48,100,104,108,112,116,120,124,128,132,136,140,36-40,44-48,100-104,108-112,116-120,124-128,132-136,"
  const W5356: string := "52,56,60,64,100,104,108,112,116,120,124,128,132,136,140,52-56,60-64,100-104,108-112,116-120,124-128,132-136,"
  const W525356: string := "36,40,44,48,52,56,60,64,100,104,108,112,116,120,124,128,132,136,140,36-40,44-48,52-56,60-64,100-104,108-112,116-120,124-128,132-136,"

  /** The band of an AP without a regulatory-domain profile, and of the default profile. */
  const AllBands: string := "W52/W53/W56"

  /** The listed channel strings, in the order they are tested, with their bands. */
  const KnownChsets: seq<string> := [W52, W53, W56, W5253, W5256, W5356, W525356]
  const KnownBands: seq<string> := ["W52", "W53", "W56", "W52/W53", "W52/W56", "W53/W56", AllBands]

  /** Every band a closed regulatory-domain profile can have. */
  predicate IsBand(b: string)
  {
    b in KnownBands || b == "Custom"
  }

  /** The band given to a regulatory-domain profile at its '!': the listed channel string it equals, else Custom. */
  function BandOf(chset: string): (b: string)
    ensures IsBand(b)
  {
    if chset == W52 then "W52"
    else if chset == W53 then "W53"
    else if chset == W56 then "W56"
    else if chset == W5253 then "W52/W53"
    else if chset == W5256 then "W52/W56"
    else if chset == W5356 then "W53/W56"
    else if chset == W525356 then AllBands
    else "Custom"
  }

  /*
   * Headers
   */

  datatype Kind = KApSys | KSsid | KVap | KApGroup | KApName | KArm | KDot11a | KDot11g | KAaa | KHtSsid | KRegDom | KDot1x

  /** The context a line outside any context opens, and the length of its keyword; the rich headers only in the rich variant. */
  function HeaderOf(v: Variant, l: string): (r: Option<(Kind, nat)>)
    ensures r.Some? ==> r.value.1 <= |l|
  {
    if StartsWith(l, "ap system-profile ") then Some((KApSys, 18))
    else if StartsWith(l, "wlan ssid-profile ") then Some((KSsid, 18))
    else if StartsWith(l, "wlan virtual-ap ") then Some((KVap, 16))
    else if StartsWith(l, "ap-group ") then Some((KApGroup, 9))
    else if StartsWith(l, "ap-name ") then Some((KApName, 8))
    else if StartsWith(l, "rf arm-profile ") then Some((KArm, 15))
    else if StartsWith(l, "rf dot11a-radio-profile ") then Some((KDot11a, 24))
    else if StartsWith(l, "rf dot11g-radio-profile ") then Some((KDot11g, 24))
    else if !Rich(v) then None
    else if StartsWith(l, "aaa profile ") then Some((KAaa, 12))
    else if StartsWith(l, "wlan ht-ssid-profile ") then Some((KHtSsid, 21))
    else if StartsWith(l, "ap regulatory-domain-profile ") then Some((KRegDom, 29))
    else if StartsWith(l, "aaa authentication dot1x ") then Some((KDot1x, 25))
    else None
  }

  /** A profile name as written after a keyword: every '"' removed. */
  function Unquote(s: string): (r: string)
    ensures '"' !in r
  {
    RemoveChar(s, '"')
  }

  /** The fresh profile a header creates, as the open context. */
  function Open(v: Variant, st: ParseState, kind: Kind, raw: string): (r: Result<ParseState, ConfigError>)
    requires st.ctx.Outside?
    ensures r.Ok? ==> r.value.cfg == st.cfg && !r.value.ctx.Outside?
  {
    var name := Unquote(raw);
    match kind
    case KApSys => Ok(st.(ctx := InApSys(ApSysProf(name, None))))
    case KSsid => Ok(st.(ctx := InSsid(Ssid(name, "", "open", false, false, None, false, false, false))))
    case KVap =>
      Ok(st.(ctx := InVap(Vap(st.nextId, name, None, NoAaa, "tunnel", 1, false, false, false, false)), nextId := st.nextId + 1))
    case KApGroup =>
      // sameapgroup keeps the name as written and lowercases only the key
      var gname := if v.SameApGroup? then name else Lower(name);
      Ok(st.(ctx := InApGroup(Lower(name), ApGroup(gname, [], None, None, None, "default", ""), false)))
    case KApName =>
      Ok(st.(ctx := InApName(Lower(name), ApName(Lower(name), [], [], None, None, NoReg, None, []), false)))
    case KArm => Ok(st.(ctx := InArm(Arm(name, false, true, false))))
    case KDot11a =>
      if !Rich(v) then Ok(st.(ctx := InDot11a(Radio(name, None, true))))
      else if "default-a" in st.cfg.arms then Ok(st.(ctx := InDot11a(Radio(name, Some(st.cfg.arms["default-a"]), true))))
      else Err(Undefined("arm-profile", "default-a"))
    case KDot11g =>
      if !Rich(v) then Ok(st.(ctx := InDot11g(Radio(name, None, true))))
      else if "default-g" in st.cfg.arms then Ok(st.(ctx := InDot11g(Radio(name, Some(st.cfg.arms["default-g"]), true))))
      else Err(Undefined("arm-profile", "default-g"))
    case KAaa => Ok(st.(ctx := InAaa(Aaa(name, false, None, "logon", false, false, false, false, false))))
    case KHtSsid => Ok(st.(ctx := InHtSsid(HtSsid(name, true, true, true, true))))
    case KRegDom => Ok(st.(ctx := InRegDom(RegDom(name, "", None))))
    case KDot1x => Ok(st.(ctx := InDot1x(Dot1x(name, false, false))))
  }

  /** A line seen outside every context. */
  function OutsideStep(v: Variant, st: ParseState, l: string): (r: Result<ParseState, ConfigError>)
    requires st.ctx.Outside?
    ensures r.Ok? ==> r.value.cfg.numAcls == st.cfg.numAcls + (if StartsWith(l, "ip access-list session ") then 1 else 0)
    ensures r.Ok? ==> r.value.cfg.numUserRoles
                      == st.cfg.numUserRoles + (if !StartsWith(l, "ip access-list session ") && StartsWith(l, "user-role ") then 1 else 0)
  {
    if StartsWith(l, "ip access-list session ") then Ok(st.(cfg := st.cfg.(numAcls := st.cfg.numAcls + 1)))
    else if StartsWith(l, "user-role ") then Ok(st.(cfg := st.cfg.(numUserRoles := st.cfg.numUserRoles + 1)))
    else match HeaderOf(v, l)
      case None => Ok(st)
      case Some(h) => Open(v, st, h.0, l[h.1..])
  }

  /*
   * Lines inside a context (already stripped, never "!")
   */

  function SsidLine(v: Variant, cfg: Config, s: Ssid, t: string): (r: Result<Ssid, ConfigError>)
    ensures r.Ok? ==> r.value.name == s.name
  {
    if StartsWith(t, "essid ") then Ok(s.(ssid := Unquote(t[6..])))
    else if StartsWith(t, "opmode ") then Ok(s.(opmode := t[7..]))
    else if StartsWith(t, "hide-ssid") then Ok(s.(stealth := true))
    else if StartsWith(t, "no ssid-enable") then Ok(s.(disabled := true))
    else if !Rich(v) then Ok(s)
    else if StartsWith(t, "ht-ssid-profile ") then
      var n := Unquote(t[16..]);
      if n in cfg.htSsids then Ok(s.(htSsid := Some(cfg.htSsids[n]))) else Err(Undefined("ht-ssid-profile", n))
    else if StartsWith(t, "local-probe-req-thresh ") then Ok(s.(probeThresh := true))
    else if StartsWith(t, "auth-req-thresh ") then Ok(s.(authThresh := true))
    else if StartsWith(t, "advertise-ap-name") then Ok(s.(advApName := true))
    else Ok(s)
  }

  /** Only an ssid-profile line changes the VAP's ssid-profile, and it disables the VAP when the profile is disabled. */
  function VapLine(v: Variant, cfg: Config, vap: Vap, t: string): (r: Result<Vap, ConfigError>)
    ensures r.Ok? ==> r.value.name == vap.name
    ensures r.Ok? ==> (r.value.ssidProf == vap.ssidProf && r.value.disabled == vap.disabled)
                      || (r.value.ssidProf.Some? && r.value.disabled == (vap.disabled || r.value.ssidProf.value.disabled))
  {
    if StartsWith(t, "aaa-profile ") then
      var n := Unquote(t[12..]);
      if !Rich(v) then Ok(vap.(aaa := AaaName(n)))
      else if n in cfg.aaas then Ok(vap.(aaa := AaaProf(cfg.aaas[n])))
      else Err(Undefined("aaa-profile", n))
    else if StartsWith(t, "ssid-profile ") then
      var n := Unquote(t[13..]);
      if n !in cfg.ssids then Err(Undefined("ssid-profile", n))
      else
        var s := cfg.ssids[n];
        Ok(vap.(ssidProf := Some(s), disabled := vap.disabled || s.disabled))
    else if StartsWith(t, "vlan ") then
      (match ParseInt(t[5..])
      case None => Err(BadVlan(t[5..]))
      case Some(n) => Ok(vap.(vlan := n)))
    else if StartsWith(t, "forward-mode ") then Ok(vap.(fwdMode := t[13..]))
    else if Rich(v) && StartsWith(t, "deny-inter-user-traffic") then Ok(vap.(denyIntUser := true))
    else if Rich(v) && StartsWith(t, "broadcast-filter all") then Ok(vap.(bcastFilterAll := true))
    else if KeepsCha(v) && StartsWith(t, "cellular-handoff-assist") then Ok(vap.(cha := true))
    else Ok(vap)
  }

  /** A radio-profile reference, shared by ap-group and ap-name blocks. */
  function RadioRef(profs: map<string, Radio>, kind: string, t: string, k: nat): Result<Option<Radio>, ConfigError>
    requires k <= |t|
  {
    var n := Unquote(t[k..]);
    if n in profs then Ok(Some(profs[n])) else Err(Undefined(kind, n))
  }

  /** Only a virtual-ap line changes the group's VAPs, appending the one it names. */
  function ApGroupLine(v: Variant, cfg: Config, g: ApGroup, aliased: bool, t: string): (r: Result<(ApGroup, bool), ConfigError>)
    ensures r.Ok? ==> r.value.0.name == g.name
    ensures r.Ok? ==> if StartsWith(t, "virtual-ap ")
                      then Unquote(t[11..]) in cfg.vaps && r.value.0.vaps == g.vaps + [cfg.vaps[Unquote(t[11..])]]
                      else r.value.0.vaps == g.vaps
  {
    // sameapgroup records every line of the block before looking at it
    var g := if v.SameApGroup? then g.(conf := g.conf + t + "\n") else g;
    if StartsWith(t, "virtual-ap ") then
      var n := Unquote(t[11..]);
      if n in cfg.vaps then Ok((g.(vaps := g.vaps + [cfg.vaps[n]]), true)) else Err(Undefined("virtual-ap", n))
    else if StartsWith(t, "dot11a-radio-profile ") then
      (match RadioRef(cfg.dot11as, "dot11a-radio-profile", t, 21)
      case Err(e) => Err(e)
      case Ok(r) => Ok((g.(dot11a := r), aliased)))
    else if StartsWith(t, "dot11g-radio-profile ") then
      (match RadioRef(cfg.dot11gs, "dot11g-radio-profile", t, 21)
      case Err(e) => Err(e)
      case Ok(r) => Ok((g.(dot11g := r), aliased)))
    else if Rich(v) && StartsWith(t, "regulatory-domain-profile ") then
      var n := Unquote(t[26..]);
      if n in cfg.regDoms then Ok((g.(reg := Some(cfg.regDoms[n])), aliased)) else Err(Undefined("regulatory-domain-profile", n))
    else if KeepsApSys(v) && StartsWith(t, "ap-system-profile ") then Ok((g.(apSys := Unquote(t[18..])), aliased))
    else Ok((g, aliased))
  }

  /** A line that puts the ap-name block into ap_names. */
  predicate StoresApName(t: string)
  {
    StartsWith(t, "virtual-ap ") || StartsWith(t, "exclude-virtual-ap ")
  }

  function ApNameLine(v: Variant, cfg: Config, a: ApName, stored: bool, t: string): (r: Result<(ApName, bool), ConfigError>)
    ensures r.Ok? ==> r.value.0.name == a.name && (r.value.1 <==> stored || StoresApName(t))
    ensures r.Ok? ==> if StartsWith(t, "virtual-ap ")
                      then Unquote(t[11..]) in cfg.vaps && r.value.0.vaps == a.vaps + [cfg.vaps[Unquote(t[11..])]]
                      else r.value.0.vaps == a.vaps
    ensures r.Ok? ==> if !StartsWith(t, "virtual-ap ") && StartsWith(t, "exclude-virtual-ap ")
                      then |r.value.0.excludeVaps| == |a.excludeVaps| + 1
                      else r.value.0.excludeVaps == a.excludeVaps
  {
    if StartsWith(t, "virtual-ap ") then
      var n := Unquote(t[11..]);
      if n in cfg.vaps then Ok((a.(vaps := a.vaps + [cfg.vaps[n]]), true)) else Err(Undefined("virtual-ap", n))
    else if StartsWith(t, "exclude-virtual-ap ") then Ok((a.(excludeVaps := a.excludeVaps + [Unquote(t[19..])]), true))
    else if StartsWith(t, "dot11a-radio-profile ") then
      (match RadioRef(cfg.dot11as, "dot11a-radio-profile", t, 21)
      case Err(e) => Err(e)
      case Ok(r) => Ok((a.(dot11a := r), stored)))
    else if StartsWith(t, "dot11g-radio-profile ") then
      (match RadioRef(cfg.dot11gs, "dot11g-radio-profile", t, 21)
      case Err(e) => Err(e)
      case Ok(r) => Ok((a.(dot11g := r), stored)))
    else if StartsWith(t, "regulatory-domain-profile ") then
      var n := Unquote(t[26..]);
      if !Rich(v) then Ok((a.(reg := RegName(n)), stored))
      else if n in cfg.regDoms then Ok((a.(reg := RegProf(cfg.regDoms[n])), stored))
      else Err(Undefined("regulatory-domain-profile", n))
    else if KeepsApSys(v) && StartsWith(t, "ap-system-profile ") then Ok((a.(apSys := Some(Unquote(t[18..]))), stored))
    else Ok((a.(misc := a.misc + [t]), stored))
  }

  function ArmLine(v: Variant, arm: Arm, t: string): (r: Arm)
    ensures r.name == arm.name
  {
    if StartsWith(t, "assignment disable") then arm.(disabled := true)
    else if Rich(v) && StartsWith(t, "no client-match") then arm.(cm := false)
    else if Rich(v) && StartsWith(t, "cm-") then arm.(cmCustom := true)
    else arm
  }

  /** An undefined arm-profile is reported and leaves the previous one in place. */
  function RadioLine(cfg: Config, r: Radio, t: string): (r': Radio)
    ensures r'.name == r.name
    ensures r'.armProf == r.armProf
            || (StartsWith(t, "arm-profile ") && Unquote(t[12..]) in cfg.arms && r'.armProf == Some(cfg.arms[Unquote(t[12..])]))
  {
    if StartsWith(t, "no radio-enable") then r.(radio := false)
    else if StartsWith(t, "arm-profile ") then
      var n := Unquote(t[12..]);
      if n in cfg.arms then r.(armProf := Some(cfg.arms[n])) else r
    else r
  }

  function AaaLine(cfg: Config, a: Aaa, t: string): (r: Result<Aaa, ConfigError>)
    ensures r.Ok? ==> r.value.name == a.name
  {
    if StartsWith(t, "initial-role ") then Ok(a.(initRole := Unquote(t[13..])))
    else if StartsWith(t, "authentication-dot1x ") then
      var n := Unquote(t[21..]);
      if n in cfg.dot1xs then Ok(a.(dot1x := Some(cfg.dot1xs[n]))) else Err(Undefined("dot1x-profile", n))
    else if StartsWith(t, "authentication-mac ") then Ok(a.(mac := true))
    else if StartsWith(t, "xml-api-server ") then Ok(a.(xmlApi := true))
    else if StartsWith(t, "radius-accounting ") then Ok(a.(acct := true))
    else if StartsWith(t, "radius-interim-accounting") then Ok(a.(interimAcct := true))
    else if StartsWith(t, "user-derivation-rules ") then Ok(a.(userDeriv := true))
    else if StartsWith(t, "l2-auth-fail-through") then Ok(a.(l2FailThru := true))
    else Ok(a)
  }

  function HtSsidLine(h: HtSsid, t: string): (r: HtSsid)
    ensures r.name == h.name
  {
    if StartsWith(t, "no high-throughput-enable") then h.(ht := false)
    else if StartsWith(t, "no very-high-throughput-enable") then h.(vht := false)
    else if StartsWith(t, "no 40MHz-enable") then h.(forty := false)
    else if StartsWith(t, "no 80MHz-enable") then h.(eighty := false)
    else h
  }

  /** Channel lines accumulate their text, each followed by a comma. */
  function RegDomLine(r: RegDom, t: string): (r': RegDom)
    ensures r'.name == r.name && r'.band == r.band
  {
    if StartsWith(t, "valid-11a-channel ") then r.(chset11a := r.chset11a + t[18..] + ",")
    else if StartsWith(t, "valid-11a-40mhz-channel-pair ") then r.(chset11a := r.chset11a + t[29..] + ",")
    else r
  }

  function Dot1xLine(d: Dot1x, t: string): (r: Dot1x)
    ensures r.name == d.name
  {
    if StartsWith(t, "reauthentication") then d.(reauth := true)
    else if StartsWith(t, "delete-keycache") then d.(deleteKeycache := true)
    else d
  }

  /** A stripped line other than "!" inside the open context. */
  function ContextLine(v: Variant, cfg: Config, ctx: Context, t: string): (r: Result<Context, ConfigError>)
    requires !ctx.Outside?
    ensures r.Ok? ==> !r.value.Outside?
    ensures r.Ok? && ctx.InApName? ==> r.value.InApName? && r.value.key == ctx.key && (r.value.stored <==> ctx.stored || StoresApName(t))
    ensures r.Ok? && ctx.InApGroup? ==>
      (r.value.InApGroup? && r.value.key == ctx.key
       && r.value.group.conf == if v.SameApGroup? then ctx.group.conf + t + "\n" else ctx.group.conf)
  {
    match ctx
    case InApSys(sys) =>
      if KeepsApSys(v) && StartsWith(t, "session-acl ") then Ok(InApSys(sys.(sesAcl := Some(Unquote(t[12..])))))
      else Ok(ctx)
    case InSsid(s) =>
      (match SsidLine(v, cfg, s, t)
      case Err(e) => Err(e)
      case Ok(s') => Ok(InSsid(s')))
    case InVap(vap) =>
      (match VapLine(v, cfg, vap, t)
      case Err(e) => Err(e)
      case Ok(vap') => Ok(InVap(vap')))
    case InApGroup(key, g, aliased) =>
      (match ApGroupLine(v, cfg, g, aliased, t)
      case Err(e) => Err(e)
      case Ok(p) => Ok(InApGroup(key, p.0, p.1)))
    case InApName(key, a, stored) =>
      (match ApNameLine(v, cfg, a, stored, t)
      case Err(e) => Err(e)
      case Ok(p) => Ok(InApName(key, p.0, p.1)))
    case InArm(arm) => Ok(InArm(ArmLine(v, arm, t)))
    case InDot11a(r) => Ok(InDot11a(RadioLine(cfg, r, t)))
    case InDot11g(r) => Ok(InDot11g(RadioLine(cfg, r, t)))
    case InAaa(a) =>
      (match AaaLine(cfg, a, t)
      case Err(e) => Err(e)
      case Ok(a') => Ok(InAaa(a')))
    case InHtSsid(h) => Ok(InHtSsid(HtSsidLine(h, t)))
    case InRegDom(r) => Ok(InRegDom(RegDomLine(r, t)))
    case InDot1x(d) => Ok(InDot1x(Dot1xLine(d, t)))
  }

  /** The open profile, as its dictionary holds it once the context is left. */
  function WriteBack(v: Variant, cfg: Config, ctx: Context): (c: Config)
    ensures c.numAcls == cfg.numAcls && c.numUserRoles == cfg.numUserRoles
    ensures !ctx.InApName? ==> c.apNames == cfg.apNames
    ensures ctx.InApName? ==> c.apNames == if ctx.stored then cfg.apNames[ctx.key := ctx.ap] else cfg.apNames
  {
    match ctx
    case Outside => cfg
    case InApSys(sys) => if KeepsApSys(v) then cfg.(apSystems := cfg.apSystems[sys.name := sys]) else cfg
    case InSsid(s) => cfg.(ssids := cfg.ssids[s.name := s])
    case InVap(vap) => cfg.(vaps := cfg.vaps[vap.name := vap])
    case InApGroup(key, g, aliased) =>
      var gs := cfg.apGroups[key := g];
      cfg.(apGroups := if aliased then gs[g.name := g] else gs)
    case InApName(key, a, stored) => if stored then cfg.(apNames := cfg.apNames[key := a]) else cfg
    case InArm(arm) => cfg.(arms := cfg.arms[arm.name := arm])
    case InDot11a(r) => cfg.(dot11as := cfg.dot11as[r.name := r])
    case InDot11g(r) => cfg.(dot11gs := cfg.dot11gs[r.name := r])
    case InAaa(a) => cfg.(aaas := cfg.aaas[a.name := a])
    case InHtSsid(h) => cfg.(htSsids := cfg.htSsids[h.name := h])
    case InRegDom(r) => cfg.(regDoms := cfg.regDoms[r.name := r])
    case InDot1x(d) => cfg.(dot1xs := cfg.dot1xs[d.name := d])
  }

  /** The '!' line: a regulatory-domain profile gets its band, then the context closes. */
  function Close(v: Variant, cfg: Config, ctx: Context): (c: Config)
    ensures c.numAcls == cfg.numAcls && c.numUserRoles == cfg.numUserRoles
    ensures !ctx.InRegDom? ==> c == WriteBack(v, cfg, ctx)
  {
    match ctx
    case InRegDom(r) => WriteBack(v, cfg, InRegDom(r.(band := Some(BandOf(r.chset11a)))))
    case _ => WriteBack(v, cfg, ctx)
  }

  function InsideStep(v: Variant, st: ParseState, t: string): (r: Result<ParseState, ConfigError>)
    requires !st.ctx.Outside?
    ensures r.Ok? && t != "!" ==> r.value.cfg == st.cfg && r.value.nextId == st.nextId && !r.value.ctx.Outside?
    ensures r.Ok? && t == "!" ==> r.value.ctx.Outside?
    ensures r.Ok? ==> r.value.cfg.numAcls == st.cfg.numAcls && r.value.cfg.numUserRoles == st.cfg.numUserRoles
  {
    if t == "!" then Ok(ParseState(Close(v, st.cfg, st.ctx), Outside, st.nextId))
    else match ContextLine(v, st.cfg, st.ctx, t)
      case Err(e) => Err(e)
      case Ok(ctx) => Ok(st.(ctx := ctx))
  }

  /** One line of the running-config. */
  function Step(v: Variant, st: ParseState, l: string): Result<ParseState, ConfigError>
  {
    if st.ctx.Outside? then OutsideStep(v, st, l) else InsideStep(v, st, Strip(l))
  }

  /** The configuration before the first line: default radio profiles, and in the rich variant the defaults it adds. */
  function InitConfig(v: Variant, name: string): Config
  {
    var base := Config(name, 0, 0, map[], map[], map[], map[], map[],
                       map["default" := Radio("default", None, true)], map["default" := Radio("default", None, true)],
                       map[], map[], map[], map[], map[]);
    if !Rich(v) then base
    else
      base.(regDoms := map["default" := RegDom("default", "", Some(AllBands))],
            dot1xs := map["default" := Dot1x("default", false, false)],
            arms := if v.confVer == 8
                    then map["default-a" := Arm("default-a", false, true, false), "default-g" := Arm("default-g", false, true, false)]
                    else map[])
  }

  function Init(v: Variant, name: string): ParseState
  {
    ParseState(InitConfig(v, name), Outside, 0)
  }

  /** The state after the lines, or the first exception. */
  function Run(v: Variant, st: ParseState, lines: seq<string>): Result<ParseState, ConfigError>
    decreases |lines|
  {
    if lines == [] then Ok(st)
    else match Run(v, st, lines[..|lines| - 1])
      case Err(e) => Err(e)
      case Ok(s) => Step(v, s, lines[|lines| - 1])
  }

  /** parse_config(name, config): the dictionaries once the last line is read, the open profile included. */
  function ParseConfig(v: Variant, name: string, lines: seq<string>): Result<Config, ConfigError>
  {
    match Run(v, Init(v, name), lines)
    case Err(e) => Err(e)
    case Ok(st) => Ok(WriteBack(v, st.cfg, st.ctx))
  }

  /** Once a line raises, the rest of the input is never read. */
  lemma {:induction false} RunErrorSticks(v: Variant, st: ParseState, lines: seq<string>, k: nat)
    requires k <= |lines| && Run(v, st, lines[..k]).Err?
    ensures Run(v, st, lines) == Run(v, st, lines[..k])
    decreases |lines| - k
  {
    if k < |lines| {
      assert lines[..k + 1][..k] == lines[..k];
      RunErrorSticks(v, st, lines, k + 1);
    } else {
      assert lines[..k] == lines;
    }
  }

  /** The body of parse_config's loop: one line read against the counters and the open context. */
  method ReadLine(v: Variant, st: ParseState, l: string) returns (r: Result<ParseState, ConfigError>)
    ensures r == Step(v, st, l)
  {
    var cfg, ctx, nextId := st.cfg, st.ctx, st.nextId;
    if ctx.Outside? {
      if StartsWith(l, "ip access-list session ") {
        cfg := cfg.(numAcls := cfg.numAcls + 1);
      } else if StartsWith(l, "user-role ") {
        cfg := cfg.(numUserRoles := cfg.numUserRoles + 1);
      } else {
        var h := HeaderOf(v, l);
        if h.Some? {
          r := Open(v, st, h.value.0, l[h.value.1..]);
          return;
        }
      }
    } else {
      var t := Strip(l);
      if t == "!" {
        cfg := Close(v, cfg, ctx);
        ctx := Outside;
      } else {
        var next := ContextLine(v, cfg, ctx, t);
        if next.Err? {
          return Err(next.error);
        }
        ctx := next.value;
      }
    }
    r := Ok(ParseState(cfg, ctx, nextId));
  }

  /**
   * parse_config's loop over the lines; the open profile is written back
   * after the last one.
   */
  method ParseConfigLines(v: Variant, name: string, config: seq<string>) returns (r: Result<Config, ConfigError>)
    ensures r == ParseConfig(v, name, config)
  {
    var st := Init(v, name);
    var k := 0;
    while k < |config|
      invariant 0 <= k <= |config|
      invariant Run(v, Init(v, name), config[..k]) == Ok(st)
    {
      assert config[..k + 1][..k] == config[..k];
      var next := ReadLine(v, st, config[k]);
      if next.Err? {
        RunErrorSticks(v, Init(v, name), config, k + 1);
        return Err(next.error);
      }
      st := next.value;
      k := k + 1;
    }
    assert config[..k] == config;
    r := Ok(WriteBack(v, st.cfg, st.ctx));
  }
}
