/**
 * The per-AP step of nttbp-summarize-functinos.py: the radio and
 * regulatory-domain profiles an AP ends up with, the set of enabled VAP
 * objects it broadcasts, and the counting of its VAP tuples and of the
 * functions each tuple's first VAP has.
 */
module SummarizeFunctions {
  import opened Wrappers
  import opened Text
  import opened AosConfig
  import opened VapSets

  /** The functions counted per VAP tuple, one per counting dictionary of the script. */
  datatype Feature =
    | DenyIntUser | Cha | BcastFilter
    | Stealth | ProbeThresh | AuthThresh | AdvApName
    | HtDisable | VhtDisable | NoBonding
    | MacAuth | XmlApi | Acct | InterimAcct | UserDeriv | L2FailThru
    | Reauth | DelKeycache
    | Band(band: string)
    | Off11a | Off11g | Static | ClientMatch | CmCustom

  /** The 11a bands the script knows; any other stops it. */
  predicate KnownBand(b: string)
  {
    b in {"W52", "W53", "W56", "W52/W53", "W52/W56", "W53/W56", "W52/W53/W56", "Custom"}
  }

  const AllFeatures: set<Feature> :=
    {DenyIntUser, Cha, BcastFilter, Stealth, ProbeThresh, AuthThresh, AdvApName, HtDisable, VhtDisable, NoBonding,
     MacAuth, XmlApi, Acct, InterimAcct, UserDeriv, L2FailThru, Reauth, DelKeycache,
     Band("W52"), Band("W53"), Band("W56"), Band("W52/W53"), Band("W52/W56"), Band("W53/W56"), Band("W52/W53/W56"),
     Band("Custom"), Off11a, Off11g, Static, ClientMatch, CmCustom}

  /** The dot11a radio profile: the stored ap-name's when it sets one, else the group's. */
  function Dot11a(c: Config, apg: string, apn: string): Option<Radio>
    requires apg in c.apGroups
  {
    if apn in c.apNames && c.apNames[apn].dot11a.Some? then c.apNames[apn].dot11a else c.apGroups[apg].dot11a
  }

  function Dot11g(c: Config, apg: string, apn: string): Option<Radio>
    requires apg in c.apGroups
  {
    if apn in c.apNames && c.apNames[apn].dot11g.Some? then c.apNames[apn].dot11g else c.apGroups[apg].dot11g
  }

  /** `radio and radio.radio is False` */
  predicate Off(r: Option<Radio>) { r.Some? && !r.value.radio }

  function ArmOf(r: Option<Radio>): Option<Arm> { if r.Some? then r.value.armProf else None }

  /** Both radios are off; checked only for a stored ap-name. */
  predicate BothOff(c: Config, apg: string, apn: string)
    requires apg in c.apGroups
  {
    apn in c.apNames && Off(Dot11a(c, apg, apn)) && Off(Dot11g(c, apg, apn))
  }

  /**
   * The regulatory-domain profile: the ap-name's when it sets one, else the
   * group's; None for a bare (non-empty) profile name, whose `.band` raises.
   */
  function RegOf(c: Config, apg: string, apn: string): Option<Option<RegDom>>
    requires apg in c.apGroups
  {
    if apn !in c.apNames then Some(c.apGroups[apg].reg)
    else match c.apNames[apn].reg
      case NoReg => Some(c.apGroups[apg].reg)
      case RegProf(p) => Some(Some(p))
      case RegName(n) => if n == "" then Some(c.apGroups[apg].reg) else None
  }

  /** What the AP contributes besides its VAPs. */
  datatype ApInfo = ApInfo(band: Option<string>, off11a: bool, off11g: bool, staticChannel: bool, cm: bool, cmCustom: bool)

  /**
   * The AP's band (all three without a regulatory-domain profile), its radios
   * that are off, whether an ARM profile of a radio that is on is disabled,
   * and the ClientMatch settings of the 11a ARM profile.
   */
  function Info(c: Config, apg: string, apn: string, reg: Option<RegDom>): ApInfo
    requires apg in c.apGroups
  {
    var a := Dot11a(c, apg, apn);
    var g := Dot11g(c, apg, apn);
    var armA := ArmOf(a);
    var armG := ArmOf(g);
    ApInfo(if reg.None? then Some("W52/W53/W56") else reg.value.band,
           Off(a), Off(g),
           (!Off(a) && armA.Some? && armA.value.disabled) || (!Off(g) && armG.Some? && armG.value.disabled),
           armA.Some? && armA.value.cm,
           armA.Some? && armA.value.cm && armA.value.cmCustom)
  }

  predicate GoodBand(info: ApInfo) { info.band.Some? && KnownBand(info.band.value) }

  /**
   * vap_prof_set: the group's enabled VAP objects, without the objects the
   * ap-name excludes, with the ap-name's enabled ones; None for the
   * KeyError of an undefined excluded name.
   */
  function VapObjs(c: Config, apg: string, apn: string): Option<set<Vap>>
    requires apg in c.apGroups
  {
    var g := set v | v in c.apGroups[apg].vaps && !v.disabled;
    if apn !in c.apNames then Some(g)
    else match Lookup(c.vaps, c.apNames[apn].excludeVaps)
      case None => None
      case Some(x) => Some(g - (set v | v in x) + (set v | v in c.apNames[apn].vaps && !v.disabled))
  }

  /** What an AP row leads to: skipped (both radios off) or visited with its information and VAP objects. */
  datatype Plan = Skip | Visit(info: ApInfo, objs: set<Vap>)

  /** None for a short row or a KeyError/AttributeError before the VAPs are visited. */
  function ApPlan(c: Config, row: seq<string>): Option<Plan>
  {
    if |row| < 2 then None
    else
      var apg := Lower(row[1]);
      var apn := Lower(row[0]);
      if apg !in c.apGroups then None
      else if BothOff(c, apg, apn) then Some(Skip)
      else match RegOf(c, apg, apn)
        case None => None
        case Some(reg) =>
          match VapObjs(c, apg, apn)
          case None => None
          case Some(objs) => Some(Visit(Info(c, apg, apn, reg), objs))
  }

  /** The tuples of the VAP objects that have an ssid-profile. */
  function TuplesOf(objs: set<Vap>): set<VapKey>
  {
    set v | v in objs && v.ssidProf.Some? :: KeyOf(v).value
  }

  /** VAP `v` of an AP with `info` has function `f`. */
  predicate Has(f: Feature, v: Vap, info: ApInfo)
  {
    match f
    case DenyIntUser => v.denyIntUser
    case Cha => v.cha
    case BcastFilter => v.bcastFilterAll
    case Stealth => v.ssidProf.Some? && v.ssidProf.value.stealth
    case ProbeThresh => v.ssidProf.Some? && v.ssidProf.value.probeThresh
    case AuthThresh => v.ssidProf.Some? && v.ssidProf.value.authThresh
    case AdvApName => v.ssidProf.Some? && v.ssidProf.value.advApName
    case HtDisable => v.ssidProf.Some? && v.ssidProf.value.htSsid.Some? && !v.ssidProf.value.htSsid.value.ht
    case VhtDisable =>
      v.ssidProf.Some? && v.ssidProf.value.htSsid.Some? && v.ssidProf.value.htSsid.value.ht && !v.ssidProf.value.htSsid.value.vht
    case NoBonding =>
      v.ssidProf.Some? && v.ssidProf.value.htSsid.Some?
      && !v.ssidProf.value.htSsid.value.eighty && !v.ssidProf.value.htSsid.value.forty
    case MacAuth => v.aaa.AaaProf? && v.aaa.p.mac
    case XmlApi => v.aaa.AaaProf? && v.aaa.p.xmlApi
    case Acct => v.aaa.AaaProf? && v.aaa.p.acct
    case InterimAcct => v.aaa.AaaProf? && v.aaa.p.interimAcct
    case UserDeriv => v.aaa.AaaProf? && v.aaa.p.userDeriv
    case L2FailThru => v.aaa.AaaProf? && v.aaa.p.l2FailThru
    case Reauth => v.aaa.AaaProf? && v.aaa.p.dot1x.Some? && v.aaa.p.dot1x.value.reauth
    case DelKeycache => v.aaa.AaaProf? && v.aaa.p.dot1x.Some? && v.aaa.p.dot1x.value.deleteKeycache
    case Band(b) => KnownBand(b) && info.band == Some(b)
    case Off11a => info.off11a
    case Off11g => info.off11g
    case Static => info.staticChannel
    case ClientMatch => info.cm
    case CmCustom => info.cmCustom
  }

  /** Every function a VAP can have is one of the counted ones. */
  lemma {:induction false} HasCounted(f: Feature, v: Vap, info: ApInfo)
    requires Has(f, v, info)
    ensures f in AllFeatures
  {
    if f.Band? {
      assert f == Band(f.band);
    }
  }

  /** The counter entries one tuple's first VAP bumps. */
  function Marks(v: Vap, t: VapKey, info: ApInfo): set<(Feature, VapKey)>
  {
    set f | f in AllFeatures && Has(f, v, info) :: (f, t)
  }

  /** Each tuple of the AP has a first VAP object (its representative), with an aaa-profile object. */
  ghost predicate Represents(rep: map<VapKey, Vap>, objs: set<Vap>)
  {
    rep.Keys == TuplesOf(objs)
    && forall t :: t in rep ==> rep[t] in objs && KeyOf(rep[t]) == Some(t) && rep[t].aaa.AaaProf?
  }

  /** The counter entries of all representatives. */
  ghost function MarksOf(rep: map<VapKey, Vap>, info: ApInfo): set<(Feature, VapKey)>
  {
    set t, f | t in rep && f in AllFeatures && Has(f, rep[t], info) :: (f, t)
  }

  /** the global_vap_count and the function counters */
  datatype FuncState = FuncState(global: map<VapKey, nat>, feats: map<(Feature, VapKey), nat>)

  /** Bumping by two disjoint sets in turn is bumping by their union. */
  lemma {:induction false} BumpUnion<K>(d: map<K, nat>, a: set<K>, b: set<K>)
    requires a !! b
    ensures Bump(Bump(d, a), b) == Bump(d, a + b)
  {
    var l := Bump(Bump(d, a), b);
    var r := Bump(d, a + b);
    assert l.Keys == r.Keys;
    forall k | k in l
      ensures l[k] == r[k]
    {
    }
  }

  lemma {:induction false} MarksAdd(rep: map<VapKey, Vap>, info: ApInfo, t: VapKey, v: Vap)
    requires t !in rep
    ensures MarksOf(rep[t := v], info) == MarksOf(rep, info) + Marks(v, t, info)
    ensures MarksOf(rep, info) !! Marks(v, t, info)
  {
  }

  lemma {:induction false} TuplesStep(done: set<Vap>, v: Vap)
    requires v.ssidProf.Some?
    ensures TuplesOf(done + {v}) == TuplesOf(done) + {KeyOf(v).value}
  {
  }

  /**
   * The loop over vap_prof_set, in whatever order the set is walked: the
   * first VAP of each tuple bumps global_vap_count and the counters of the
   * functions it has, later VAPs with the same tuple are passed over. It
   * fails on a VAP without ssid-profile, on a first VAP whose aaa-profile is
   * not an object, and on an unknown band (the script exits).
   */
  /** A VAP without ssid-profile, or an unknown band with any VAP at all: the loop cannot finish. */
  ghost predicate VisitMustFail(info: ApInfo, objs: set<Vap>)
  {
    (exists v :: v in objs && v.ssidProf.None?) || (objs != {} && !GoodBand(info))
  }

  /** What the loop can stop on: also a first VAP whose aaa-profile is not an object. */
  ghost predicate VisitMayFail(info: ApInfo, objs: set<Vap>)
  {
    (exists v :: v in objs && (v.ssidProf.None? || !v.aaa.AaaProf?)) || (objs != {} && !GoodBand(info))
  }

  method VisitVaps(st: FuncState, info: ApInfo, objs: set<Vap>) returns (r: Option<FuncState>)
    ensures VisitMustFail(info, objs) ==> r.None?
    ensures r.None? ==> VisitMayFail(info, objs)
    ensures r.Some? ==> r.value.global == Bump(st.global, TuplesOf(objs))
    ensures r.Some? ==> exists rep :: Represents(rep, objs) && r.value.feats == Bump(st.feats, MarksOf(rep, info))
  {
    var global := st.global;
    var feats := st.feats;
    var seen: set<VapKey> := {};
    ghost var rep: map<VapKey, Vap> := map[];
    ghost var done: set<Vap> := {};
    var rest := objs;
    VisitStart(st, info, objs);
    while rest != {}
      invariant done + rest == objs && done !! rest
      invariant VisitInv(st, info, objs, done, global, feats, seen, rep)
      decreases rest
    {
      var v :| v in rest;
      if v.ssidProf.None? {
        assert v in objs;
        return None;
      }
      var t := KeyOf(v).value;
      if t !in seen && (!v.aaa.AaaProf? || !GoodBand(info)) {
        assert v in objs;
        return None;
      }
      global, feats, seen, rep := VisitOne(st, info, objs, done, global, feats, seen, rep, v);
      done := done + {v};
      rest := rest - {v};
    }
    VisitDone(info, objs, done, seen, rep);
    r := Some(FuncState(global, feats));
  }

  lemma {:induction false} VisitStart(st: FuncState, info: ApInfo, objs: set<Vap>)
    ensures VisitInv(st, info, objs, {}, st.global, st.feats, {}, map[])
  {
    assert MarksOf(map[], info) == {};
    assert st.feats == Bump(st.feats, {});
    assert st.global == Bump(st.global, {});
  }

  /** Once every VAP is visited, each has an ssid-profile and the representatives cover every tuple. */
  lemma {:induction false} VisitDone(info: ApInfo, objs: set<Vap>, done: set<Vap>, seen: set<VapKey>, rep: map<VapKey, Vap>)
    requires done == objs && VisitShape(info, objs, done, seen, rep)
    ensures !VisitMustFail(info, objs)
    ensures Represents(rep, objs) && seen == TuplesOf(objs)
  {
  }

  /** The tuples seen so far and the VAP that stands for each. */
  ghost predicate VisitShape(info: ApInfo, objs: set<Vap>, done: set<Vap>, seen: set<VapKey>, rep: map<VapKey, Vap>)
  {
    (forall v :: v in done ==> v.ssidProf.Some?)
    && seen == rep.Keys == TuplesOf(done)
    && (forall t :: t in rep ==> rep[t] in objs && KeyOf(rep[t]) == Some(t) && rep[t].aaa.AaaProf?)
    && (done != {} ==> GoodBand(info))
  }

  /** What VisitVaps keeps once the VAPs of `done` are visited. */
  ghost predicate VisitInv(st: FuncState, info: ApInfo, objs: set<Vap>, done: set<Vap>, global: map<VapKey, nat>,
                           feats: map<(Feature, VapKey), nat>, seen: set<VapKey>, rep: map<VapKey, Vap>)
  {
    VisitShape(info, objs, done, seen, rep)
    && global == Bump(st.global, seen)
    && feats == Bump(st.feats, MarksOf(rep, info))
  }

  /** One VAP of the loop: a new tuple is counted, a tuple already seen is passed over. */
  method VisitOne(ghost st: FuncState, info: ApInfo, ghost objs: set<Vap>, ghost done: set<Vap>,
                  global: map<VapKey, nat>, feats: map<(Feature, VapKey), nat>, seen: set<VapKey>,
                  ghost rep: map<VapKey, Vap>, v: Vap)
    returns (global': map<VapKey, nat>, feats': map<(Feature, VapKey), nat>, seen': set<VapKey>, ghost rep': map<VapKey, Vap>)
    requires VisitInv(st, info, objs, done, global, feats, seen, rep)
    requires v in objs && v.ssidProf.Some?
    requires KeyOf(v).value !in seen ==> v.aaa.AaaProf? && GoodBand(info)
    ensures VisitInv(st, info, objs, done + {v}, global', feats', seen', rep')
  {
    var t := KeyOf(v).value;
    if t in seen {
      global', feats', seen', rep' := global, feats, seen, rep;
      VisitSeen(info, objs, done, seen, rep, v);
    } else {
      global', feats' := CountFirst(st, global, feats, rep, seen, v, t, info);
      seen' := seen + {t};
      rep' := rep[t := v];
      VisitNew(info, objs, done, seen, rep, v);
    }
  }

  /** A VAP whose tuple was seen changes nothing. */
  lemma {:induction false} VisitSeen(info: ApInfo, objs: set<Vap>, done: set<Vap>, seen: set<VapKey>, rep: map<VapKey, Vap>, v: Vap)
    requires VisitShape(info, objs, done, seen, rep)
    requires v.ssidProf.Some? && KeyOf(v).value in seen
    ensures VisitShape(info, objs, done + {v}, seen, rep)
  {
    TuplesStep(done, v);
  }

  /** The first VAP of a tuple becomes the tuple's representative. */
  lemma {:induction false} VisitNew(info: ApInfo, objs: set<Vap>, done: set<Vap>, seen: set<VapKey>, rep: map<VapKey, Vap>, v: Vap)
    requires VisitShape(info, objs, done, seen, rep)
    requires v in objs && v.ssidProf.Some? && KeyOf(v).value !in seen && v.aaa.AaaProf? && GoodBand(info)
    ensures VisitShape(info, objs, done + {v}, seen + {KeyOf(v).value}, rep[KeyOf(v).value := v])
  {
    var t := KeyOf(v).value;
    var rep' := rep[t := v];
    TuplesStep(done, v);
    assert rep'.Keys == rep.Keys + {t};
    forall u | u in rep'
      ensures rep'[u] in objs && KeyOf(rep'[u]) == Some(u) && rep'[u].aaa.AaaProf?
    {
      if u != t {
        assert rep'[u] == rep[u];
      }
    }
  }

  /** The first VAP of tuple `t`: one more AP for the tuple, one more for each function the VAP has. */
  method CountFirst(ghost st: FuncState, global: map<VapKey, nat>, feats: map<(Feature, VapKey), nat>,
                    ghost rep: map<VapKey, Vap>, seen: set<VapKey>, v: Vap, t: VapKey, info: ApInfo)
    returns (global': map<VapKey, nat>, feats': map<(Feature, VapKey), nat>)
    requires t !in seen && seen == rep.Keys
    requires global == Bump(st.global, seen) && feats == Bump(st.feats, MarksOf(rep, info))
    ensures global' == Bump(st.global, seen + {t})
    ensures feats' == Bump(st.feats, MarksOf(rep[t := v], info))
  {
    BumpUnion(st.global, seen, {t});
    global' := Tally(global, {t});
    MarksAdd(rep, info, t, v);
    BumpUnion(st.feats, MarksOf(rep, info), Marks(v, t, info));
    feats' := Tally(feats, Marks(v, t, info));
  }
}
