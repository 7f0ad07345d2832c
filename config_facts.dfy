/**
 * What parse_config guarantees about the dictionaries it returns: profile
 * keys are names without '"' (ap-group and ap-name keys lowercased), an
 * ap-name is stored only when its block has a virtual-ap or
 * exclude-virtual-ap line, a VAP that references a disabled ssid-profile is
 * disabled, and a regulatory-domain profile closed by '!' has one of the
 * eight bands. Each holds of every state the reader passes through.
 */
module AosConfigFacts {
  import opened Wrappers
  import opened Text
  import opened AosConfig

  predicate Unquoted(k: string) { '"' !in k }

  predicate Lowered(k: string) { Lower(k) == k }

  /** A VAP referencing a disabled ssid-profile is disabled. */
  predicate VapOk(vap: Vap)
  {
    vap.ssidProf.Some? && vap.ssidProf.value.disabled ==> vap.disabled
  }

  predicate VapsOk(vaps: seq<Vap>)
  {
    forall i :: 0 <= i < |vaps| ==> VapOk(vaps[i])
  }

  /**
   * An ap-group key is its lowercased name; sameapgroup keeps the name as
   * written and, once the block has a virtual-ap line, stores the group
   * under that name too.
   */
  predicate GroupKeyOk(v: Variant, k: string, g: ApGroup)
  {
    Unquoted(k) && Unquoted(g.name)
    && if v.SameApGroup? then k == Lower(g.name) || k == g.name else k == g.name && Lowered(k)
  }

  predicate ApNameKeyOk(k: string, a: ApName)
  {
    k == a.name && Unquoted(k) && Lowered(k)
  }

  /** An ap-name block is stored only once a virtual-ap or exclude-virtual-ap line has been read. */
  predicate HasVapLine(a: ApName)
  {
    |a.vaps| > 0 || |a.excludeVaps| > 0
  }

  predicate SsidsOk(c: Config) { forall k :: k in c.ssids ==> c.ssids[k].name == k && Unquoted(k) }

  predicate VapMapOk(c: Config) { forall k :: k in c.vaps ==> c.vaps[k].name == k && Unquoted(k) && VapOk(c.vaps[k]) }

  predicate GroupsOk(v: Variant, c: Config)
  {
    forall k :: k in c.apGroups ==> GroupKeyOk(v, k, c.apGroups[k]) && VapsOk(c.apGroups[k].vaps)
  }

  predicate ApNamesOk(c: Config)
  {
    forall k :: k in c.apNames ==> ApNameKeyOk(k, c.apNames[k]) && VapsOk(c.apNames[k].vaps) && HasVapLine(c.apNames[k])
  }

  predicate RadiosOk(c: Config)
  {
    (forall k :: k in c.arms ==> c.arms[k].name == k && Unquoted(k))
    && (forall k :: k in c.dot11as ==> c.dot11as[k].name == k && Unquoted(k))
    && (forall k :: k in c.dot11gs ==> c.dot11gs[k].name == k && Unquoted(k))
  }

  predicate OthersOk(c: Config)
  {
    (forall k :: k in c.apSystems ==> c.apSystems[k].name == k && Unquoted(k))
    && (forall k :: k in c.aaas ==> c.aaas[k].name == k && Unquoted(k))
    && (forall k :: k in c.htSsids ==> c.htSsids[k].name == k && Unquoted(k))
    && (forall k :: k in c.dot1xs ==> c.dot1xs[k].name == k && Unquoted(k))
  }

  /** A regulatory-domain profile has a band only once closed, and then one of the eight. */
  predicate RegDomsOk(c: Config)
  {
    forall k :: k in c.regDoms ==> c.regDoms[k].name == k && Unquoted(k) && (c.regDoms[k].band.Some? ==> IsBand(c.regDoms[k].band.value))
  }

  predicate ConfigGood(v: Variant, c: Config)
  {
    SsidsOk(c) && VapMapOk(c) && GroupsOk(v, c) && ApNamesOk(c) && RadiosOk(c) && OthersOk(c) && RegDomsOk(c)
  }

  /** The open profile satisfies what its dictionary will require of it. */
  predicate CtxGood(v: Variant, ctx: Context)
  {
    match ctx
    case Outside => true
    case InApSys(s) => Unquoted(s.name)
    case InSsid(s) => Unquoted(s.name)
    case InVap(vap) => Unquoted(vap.name) && VapOk(vap)
    case InApGroup(key, g, _) => GroupKeyOk(v, key, g) && VapsOk(g.vaps) && (v.SameApGroup? ==> key == Lower(g.name))
    case InApName(key, a, stored) => ApNameKeyOk(key, a) && VapsOk(a.vaps) && (stored <==> HasVapLine(a))
    case InArm(a) => Unquoted(a.name)
    case InDot11a(r) => Unquoted(r.name)
    case InDot11g(r) => Unquoted(r.name)
    case InAaa(a) => Unquoted(a.name)
    case InHtSsid(h) => Unquoted(h.name)
    case InRegDom(r) => Unquoted(r.name) && r.band.None?
    case InDot1x(d) => Unquoted(d.name)
  }

  predicate StateGood(v: Variant, st: ParseState)
  {
    ConfigGood(v, st.cfg) && CtxGood(v, st.ctx)
  }

  lemma {:induction false} InitGood(v: Variant, name: string)
    ensures StateGood(v, Init(v, name))
  {
  }

  /** A lowered, unquoted name is both. */
  lemma {:induction false} LoweredKey(raw: string)
    ensures Unquoted(Lower(Unquote(raw))) && Lowered(Lower(Unquote(raw)))
  {
    LowerKeepsNonLetter(Unquote(raw), '"');
    LowerIdempotent(Unquote(raw));
  }

  lemma {:induction false} OpenGood(v: Variant, st: ParseState, kind: Kind, raw: string)
    requires st.ctx.Outside? && ConfigGood(v, st.cfg) && Open(v, st, kind, raw).Ok?
    ensures StateGood(v, Open(v, st, kind, raw).value)
  {
    LoweredKey(raw);
  }

  lemma {:induction false} VapLineGood(v: Variant, cfg: Config, vap: Vap, t: string)
    requires VapOk(vap) && VapLine(v, cfg, vap, t).Ok?
    ensures VapOk(VapLine(v, cfg, vap, t).value) && VapLine(v, cfg, vap, t).value.name == vap.name
  {
  }

  lemma {:induction false} ApGroupLineGood(v: Variant, cfg: Config, g: ApGroup, aliased: bool, t: string)
    requires VapMapOk(cfg) && VapsOk(g.vaps) && ApGroupLine(v, cfg, g, aliased, t).Ok?
    ensures ApGroupLine(v, cfg, g, aliased, t).value.0.name == g.name
    ensures VapsOk(ApGroupLine(v, cfg, g, aliased, t).value.0.vaps)
  {
    if StartsWith(t, "virtual-ap ") {
      assert VapOk(cfg.vaps[Unquote(t[11..])]);
    }
  }

  lemma {:induction false} ApNameLineGood(v: Variant, cfg: Config, a: ApName, stored: bool, t: string)
    requires VapMapOk(cfg) && VapsOk(a.vaps) && (stored <==> HasVapLine(a)) && ApNameLine(v, cfg, a, stored, t).Ok?
    ensures var p := ApNameLine(v, cfg, a, stored, t).value;
      p.0.name == a.name && VapsOk(p.0.vaps) && (p.1 <==> HasVapLine(p.0))
  {
    if StartsWith(t, "virtual-ap ") {
      assert VapOk(cfg.vaps[Unquote(t[11..])]);
    }
  }

  lemma {:induction false} ContextLineGood(v: Variant, cfg: Config, ctx: Context, t: string)
    requires !ctx.Outside? && ConfigGood(v, cfg) && CtxGood(v, ctx) && ContextLine(v, cfg, ctx, t).Ok?
    ensures CtxGood(v, ContextLine(v, cfg, ctx, t).value)
  {
    match ctx
    case InVap(vap) => VapLineGood(v, cfg, vap, t);
    case InApGroup(key, g, aliased) => ApGroupLineGood(v, cfg, g, aliased, t);
    case InApName(key, a, stored) => ApNameLineGood(v, cfg, a, stored, t);
    case _ =>
  }

  lemma {:induction false} SsidStored(v: Variant, c: Config, s: Ssid)
    requires ConfigGood(v, c) && Unquoted(s.name)
    ensures ConfigGood(v, c.(ssids := c.ssids[s.name := s]))
  {
    var c' := c.(ssids := c.ssids[s.name := s]);
    assert SsidsOk(c');
    assert SsidsOk(c') && VapMapOk(c') && GroupsOk(v, c') && ApNamesOk(c') && RadiosOk(c') && OthersOk(c') && RegDomsOk(c');
  }

  lemma {:induction false} VapStored(v: Variant, c: Config, vap: Vap)
    requires ConfigGood(v, c) && Unquoted(vap.name) && VapOk(vap)
    ensures ConfigGood(v, c.(vaps := c.vaps[vap.name := vap]))
  {
    var c' := c.(vaps := c.vaps[vap.name := vap]);
    assert VapMapOk(c');
    assert SsidsOk(c') && VapMapOk(c') && GroupsOk(v, c') && ApNamesOk(c') && RadiosOk(c') && OthersOk(c') && RegDomsOk(c');
  }

  lemma {:induction false} GroupStored(v: Variant, c: Config, k: string, g: ApGroup)
    requires ConfigGood(v, c) && GroupKeyOk(v, k, g) && VapsOk(g.vaps)
    ensures ConfigGood(v, c.(apGroups := c.apGroups[k := g]))
  {
    var c' := c.(apGroups := c.apGroups[k := g]);
    assert GroupsOk(v, c');
    assert SsidsOk(c') && VapMapOk(c') && GroupsOk(v, c') && ApNamesOk(c') && RadiosOk(c') && OthersOk(c') && RegDomsOk(c');
  }

  lemma {:induction false} ApNameStored(v: Variant, c: Config, k: string, a: ApName)
    requires ConfigGood(v, c) && ApNameKeyOk(k, a) && VapsOk(a.vaps) && HasVapLine(a)
    ensures ConfigGood(v, c.(apNames := c.apNames[k := a]))
  {
    var c' := c.(apNames := c.apNames[k := a]);
    assert ApNamesOk(c');
    assert SsidsOk(c') && VapMapOk(c') && GroupsOk(v, c') && ApNamesOk(c') && RadiosOk(c') && OthersOk(c') && RegDomsOk(c');
  }

  lemma {:induction false} ArmStored(v: Variant, c: Config, a: Arm)
    requires ConfigGood(v, c) && Unquoted(a.name)
    ensures ConfigGood(v, c.(arms := c.arms[a.name := a]))
  {
    var c' := c.(arms := c.arms[a.name := a]);
    assert RadiosOk(c');
    assert SsidsOk(c') && VapMapOk(c') && GroupsOk(v, c') && ApNamesOk(c') && RadiosOk(c') && OthersOk(c') && RegDomsOk(c');
  }

  lemma {:induction false} Dot11aStored(v: Variant, c: Config, r: Radio)
    requires ConfigGood(v, c) && Unquoted(r.name)
    ensures ConfigGood(v, c.(dot11as := c.dot11as[r.name := r]))
  {
    var c' := c.(dot11as := c.dot11as[r.name := r]);
    assert RadiosOk(c');
    assert SsidsOk(c') && VapMapOk(c') && GroupsOk(v, c') && ApNamesOk(c') && RadiosOk(c') && OthersOk(c') && RegDomsOk(c');
  }

  lemma {:induction false} Dot11gStored(v: Variant, c: Config, r: Radio)
    requires ConfigGood(v, c) && Unquoted(r.name)
    ensures ConfigGood(v, c.(dot11gs := c.dot11gs[r.name := r]))
  {
    var c' := c.(dot11gs := c.dot11gs[r.name := r]);
    assert RadiosOk(c');
    assert SsidsOk(c') && VapMapOk(c') && GroupsOk(v, c') && ApNamesOk(c') && RadiosOk(c') && OthersOk(c') && RegDomsOk(c');
  }

  lemma {:induction false} ApSysStored(v: Variant, c: Config, p: ApSysProf)
    requires ConfigGood(v, c) && Unquoted(p.name)
    ensures ConfigGood(v, c.(apSystems := c.apSystems[p.name := p]))
  {
    var c' := c.(apSystems := c.apSystems[p.name := p]);
    assert OthersOk(c');
    assert SsidsOk(c') && VapMapOk(c') && GroupsOk(v, c') && ApNamesOk(c') && RadiosOk(c') && OthersOk(c') && RegDomsOk(c');
  }

  lemma {:induction false} AaaStored(v: Variant, c: Config, a: Aaa)
    requires ConfigGood(v, c) && Unquoted(a.name)
    ensures ConfigGood(v, c.(aaas := c.aaas[a.name := a]))
  {
    var c' := c.(aaas := c.aaas[a.name := a]);
    assert OthersOk(c');
    assert SsidsOk(c') && VapMapOk(c') && GroupsOk(v, c') && ApNamesOk(c') && RadiosOk(c') && OthersOk(c') && RegDomsOk(c');
  }

  lemma {:induction false} HtSsidStored(v: Variant, c: Config, h: HtSsid)
    requires ConfigGood(v, c) && Unquoted(h.name)
    ensures ConfigGood(v, c.(htSsids := c.htSsids[h.name := h]))
  {
    var c' := c.(htSsids := c.htSsids[h.name := h]);
    assert OthersOk(c');
    assert SsidsOk(c') && VapMapOk(c') && GroupsOk(v, c') && ApNamesOk(c') && RadiosOk(c') && OthersOk(c') && RegDomsOk(c');
  }

  lemma {:induction false} Dot1xStored(v: Variant, c: Config, d: Dot1x)
    requires ConfigGood(v, c) && Unquoted(d.name)
    ensures ConfigGood(v, c.(dot1xs := c.dot1xs[d.name := d]))
  {
    var c' := c.(dot1xs := c.dot1xs[d.name := d]);
    assert OthersOk(c');
    assert SsidsOk(c') && VapMapOk(c') && GroupsOk(v, c') && ApNamesOk(c') && RadiosOk(c') && OthersOk(c') && RegDomsOk(c');
  }

  lemma {:induction false} RegDomStored(v: Variant, c: Config, r: RegDom)
    requires ConfigGood(v, c) && Unquoted(r.name) && (r.band.Some? ==> IsBand(r.band.value))
    ensures ConfigGood(v, c.(regDoms := c.regDoms[r.name := r]))
  {
    var c' := c.(regDoms := c.regDoms[r.name := r]);
    assert RegDomsOk(c');
    assert SsidsOk(c') && VapMapOk(c') && GroupsOk(v, c') && ApNamesOk(c') && RadiosOk(c') && OthersOk(c') && RegDomsOk(c');
  }

  lemma {:induction false} WriteBackGood(v: Variant, cfg: Config, ctx: Context)
    requires ConfigGood(v, cfg) && CtxGood(v, ctx)
    ensures ConfigGood(v, WriteBack(v, cfg, ctx))
  {
    if ctx.InApGroup? || ctx.InApName? || ctx.InApSys? || ctx.InSsid? || ctx.InVap? || ctx.Outside? {
      WriteBackApGood(v, cfg, ctx);
    } else {
      WriteBackRadioGood(v, cfg, ctx);
    }
  }

  /** WriteBackGood for the AP, ssid and VAP profiles. */
  lemma {:induction false} WriteBackApGood(v: Variant, cfg: Config, ctx: Context)
    requires ConfigGood(v, cfg) && CtxGood(v, ctx)
    requires ctx.InApGroup? || ctx.InApName? || ctx.InApSys? || ctx.InSsid? || ctx.InVap? || ctx.Outside?
    ensures ConfigGood(v, WriteBack(v, cfg, ctx))
  {
    match ctx
    case InApSys(sys) =>
      if KeepsApSys(v) {
        ApSysStored(v, cfg, sys);
      }
    case InSsid(s) => SsidStored(v, cfg, s);
    case InVap(vap) => VapStored(v, cfg, vap);
    case InApGroup(key, g, aliased) =>
      GroupStored(v, cfg, key, g);
      if aliased {
        GroupStored(v, cfg.(apGroups := cfg.apGroups[key := g]), g.name, g);
      }
    case InApName(key, a, stored) =>
      if stored {
        ApNameStored(v, cfg, key, a);
      }
    case Outside =>
  }

  /** WriteBackGood for the radio, aaa, ht-ssid, regulatory-domain and dot1x profiles. */
  lemma {:induction false} WriteBackRadioGood(v: Variant, cfg: Config, ctx: Context)
    requires ConfigGood(v, cfg) && CtxGood(v, ctx)
    requires !(ctx.InApGroup? || ctx.InApName? || ctx.InApSys? || ctx.InSsid? || ctx.InVap? || ctx.Outside?)
    ensures ConfigGood(v, WriteBack(v, cfg, ctx))
  {
    match ctx
    case InArm(arm) => ArmStored(v, cfg, arm);
    case InDot11a(r) => Dot11aStored(v, cfg, r);
    case InDot11g(r) => Dot11gStored(v, cfg, r);
    case InAaa(a) => AaaStored(v, cfg, a);
    case InHtSsid(h) => HtSsidStored(v, cfg, h);
    case InRegDom(r) => RegDomStored(v, cfg, r);
    case InDot1x(d) => Dot1xStored(v, cfg, d);
  }

  lemma {:induction false} CloseGood(v: Variant, cfg: Config, ctx: Context)
    requires ConfigGood(v, cfg) && CtxGood(v, ctx)
    ensures ConfigGood(v, Close(v, cfg, ctx))
  {
    if ctx.InRegDom? {
      var r := ctx.reg.(band := Some(BandOf(ctx.reg.chset11a)));
      assert Close(v, cfg, ctx) == cfg.(regDoms := cfg.regDoms[r.name := r]);
      RegDomStored(v, cfg, r);
    } else {
      WriteBackGood(v, cfg, ctx);
    }
  }

  lemma {:induction false} StepGood(v: Variant, st: ParseState, l: string)
    requires StateGood(v, st) && Step(v, st, l).Ok?
    ensures StateGood(v, Step(v, st, l).value)
  {
    if st.ctx.Outside? {
      if !StartsWith(l, "ip access-list session ") && !StartsWith(l, "user-role ") {
        var h := HeaderOf(v, l);
        if h.Some? {
          OpenGood(v, st, h.value.0, l[h.value.1..]);
        }
      }
    } else {
      var t := Strip(l);
      if t == "!" {
        CloseGood(v, st.cfg, st.ctx);
      } else {
        ContextLineGood(v, st.cfg, st.ctx, t);
      }
    }
  }

  lemma {:induction false} RunGood(v: Variant, st: ParseState, lines: seq<string>)
    requires StateGood(v, st) && Run(v, st, lines).Ok?
    ensures StateGood(v, Run(v, st, lines).value)
    decreases |lines|
  {
    if lines != [] {
      var prefix := lines[..|lines| - 1];
      RunGood(v, st, prefix);
      StepGood(v, Run(v, st, prefix).value, lines[|lines| - 1]);
    }
  }

  /**
   * The dictionaries parse_config returns: keys are names without '"',
   * ap-group and ap-name keys lowercased (sameapgroup also keeping the
   * name as written), every stored ap-name has a virtual-ap or exclusion,
   * a VAP with a disabled ssid-profile is disabled, and every band is one
   * of the eight.
   */
  lemma {:induction false} ParsedConfigGood(v: Variant, name: string, lines: seq<string>)
    requires ParseConfig(v, name, lines).Ok?
    ensures ConfigGood(v, ParseConfig(v, name, lines).value)
  {
    InitGood(v, name);
    RunGood(v, Init(v, name), lines);
    var st := Run(v, Init(v, name), lines).value;
    WriteBackGood(v, st.cfg, st.ctx);
  }

  /*
   * Counters
   */

  /** The reader is outside every context after these lines. */
  predicate OutsideAfter(v: Variant, st: ParseState, lines: seq<string>)
  {
    Run(v, st, lines).Ok? && Run(v, st, lines).value.ctx.Outside?
  }

  /** The number of lines starting with prefix p that the reader met outside every context. */
  function OutsideLines(v: Variant, st: ParseState, lines: seq<string>, p: string): nat
    decreases |lines|
  {
    if lines == [] then 0
    else
      var prefix := lines[..|lines| - 1];
      OutsideLines(v, st, prefix, p) + (if OutsideAfter(v, st, prefix) && StartsWith(lines[|lines| - 1], p) then 1 else 0)
  }

  /** One line moves each counter by one exactly when it is read outside a context and starts with the counter's keyword. */
  lemma {:induction false} StepCounters(v: Variant, st: ParseState, l: string)
    requires Step(v, st, l).Ok?
    ensures Step(v, st, l).value.cfg.numAcls
            == st.cfg.numAcls + (if st.ctx.Outside? && StartsWith(l, "ip access-list session ") then 1 else 0)
    ensures Step(v, st, l).value.cfg.numUserRoles
            == st.cfg.numUserRoles + (if st.ctx.Outside? && StartsWith(l, "user-role ") then 1 else 0)
  {
    if st.ctx.Outside? {
      assert Step(v, st, l) == OutsideStep(v, st, l);
      if StartsWith(l, "user-role ") {
        NotStartsWith(l, "ip access-list session ", 0);
      }
    } else {
      assert Step(v, st, l) == InsideStep(v, st, Strip(l));
    }
  }

  /**
   * num_acls and num_user_roles count the 'ip access-list session ' and
   * 'user-role ' lines met outside every context, one each.
   */
  lemma {:induction false} RunCounters(v: Variant, st: ParseState, lines: seq<string>)
    requires Run(v, st, lines).Ok?
    ensures Run(v, st, lines).value.cfg.numAcls == st.cfg.numAcls + OutsideLines(v, st, lines, "ip access-list session ")
    ensures Run(v, st, lines).value.cfg.numUserRoles == st.cfg.numUserRoles + OutsideLines(v, st, lines, "user-role ")
    decreases |lines|
  {
    if lines != [] {
      var prefix := lines[..|lines| - 1];
      RunCounters(v, st, prefix);
      StepCounters(v, Run(v, st, prefix).value, lines[|lines| - 1]);
    }
  }

  /*
   * ap-name blocks
   */

  /** An ap-name header opens its block and leaves the dictionaries alone. */
  lemma {:induction false} ApNameHeader(v: Variant, st: ParseState, header: string)
    requires st.ctx.Outside? && StartsWith(header, "ap-name ")
    ensures Step(v, st, header).Ok?
    ensures var s := Step(v, st, header).value;
      s.cfg == st.cfg && s.ctx.InApName? && s.ctx.key == Lower(Unquote(header[8..])) && !s.ctx.stored
  {
    assert header[..8] == "ap-name ";
    NotStartsWith(header, "ip access-list session ", 0);
    NotStartsWith(header, "user-role ", 0);
    NotStartsWith(header, "ap system-profile ", 2);
    NotStartsWith(header, "wlan ssid-profile ", 0);
    NotStartsWith(header, "wlan virtual-ap ", 0);
    NotStartsWith(header, "ap-group ", 3);
    assert HeaderOf(v, header) == Some((KApName, 8));
    assert Step(v, st, header) == Open(v, st, KApName, header[8..]);
  }

  /** A line of an ap-name block other than '!' keeps the block open and marks it stored when it stores it. */
  lemma {:induction false} ApNameStep(v: Variant, s: ParseState, l: string)
    requires s.ctx.InApName? && Strip(l) != "!" && Step(v, s, l).Ok?
    ensures var s' := Step(v, s, l).value;
      s'.cfg == s.cfg && s'.ctx.InApName? && s'.ctx.key == s.ctx.key
      && (s'.ctx.stored <==> s.ctx.stored || StoresApName(Strip(l)))
  {
  }

  /** Inside an ap-name block, its lines leave the dictionaries alone, and the block is marked stored once one of them stores it. */
  lemma {:induction false} ApNameBody(v: Variant, st: ParseState, header: string, body: seq<string>, j: nat)
    requires st.ctx.Outside? && StartsWith(header, "ap-name ") && j <= |body|
    requires forall i :: 0 <= i < |body| ==> Strip(body[i]) != "!"
    requires Run(v, st, [header] + body[..j]).Ok?
    ensures var s := Run(v, st, [header] + body[..j]).value;
      s.cfg == st.cfg && s.ctx.InApName? && s.ctx.key == Lower(Unquote(header[8..]))
      && (s.ctx.stored <==> exists i :: 0 <= i < j && StoresApName(Strip(body[i])))
    decreases j
  {
    var xs := [header] + body[..j];
    if j == 0 {
      assert xs == [header];
      assert Run(v, st, [header]) == Step(v, st, header) by {
        assert [header][..0] == [];
      }
      ApNameHeader(v, st, header);
    } else {
      var ys := [header] + body[..j - 1];
      assert xs[..|xs| - 1] == ys && xs[|xs| - 1] == body[j - 1];
      assert Run(v, st, xs) == (match Run(v, st, ys) case Err(e) => Err(e) case Ok(s) => Step(v, s, body[j - 1]));
      ApNameBody(v, st, header, body, j - 1);
      ApNameStep(v, Run(v, st, ys).value, body[j - 1]);
      var s := Run(v, st, xs).value;
      if s.ctx.stored {
        if StoresApName(Strip(body[j - 1])) {
          assert 0 <= j - 1 < j && StoresApName(Strip(body[j - 1]));
        } else {
          var i :| 0 <= i < j - 1 && StoresApName(Strip(body[i]));
          assert 0 <= i < j && StoresApName(Strip(body[i]));
        }
      } else {
        forall i | 0 <= i < j
          ensures !StoresApName(Strip(body[i]))
        {
          if i < j - 1 {
            assert !(0 <= i < j - 1 && StoresApName(Strip(body[i])));
          }
        }
      }
    }
  }

  /** The '!' of a block: the open profile goes into its dictionary and the reader is outside again. */
  lemma {:induction false} CloseStep(v: Variant, s: ParseState)
    requires !s.ctx.Outside? && !s.ctx.InRegDom?
    ensures Step(v, s, "!") == Ok(ParseState(WriteBack(v, s.cfg, s.ctx), Outside, s.nextId))
  {
    assert Strip("!") == "!" by {
      assert !IsSpace('!');
    }
  }

  /**
   * A whole ap-name block, from its header to its '!': with a virtual-ap or
   * exclude-virtual-ap line it is stored under its lowercased, unquoted
   * name; without one ap_names is left as it was.
   */
  lemma {:induction false} ApNameBlock(v: Variant, st: ParseState, header: string, body: seq<string>)
    requires st.ctx.Outside? && StartsWith(header, "ap-name ")
    requires forall i :: 0 <= i < |body| ==> Strip(body[i]) != "!"
    requires Run(v, st, [header] + body + ["!"]).Ok?
    ensures var key := Lower(Unquote(header[8..]));
      var c := Run(v, st, [header] + body + ["!"]).value.cfg;
      ((exists i :: 0 <= i < |body| && StoresApName(Strip(body[i]))) ==> c.apNames.Keys == st.cfg.apNames.Keys + {key})
      && (!(exists i :: 0 <= i < |body| && StoresApName(Strip(body[i]))) ==> c.apNames == st.cfg.apNames)
  {
    var xs := [header] + body;
    assert body[..|body|] == body;
    assert [header] + body + ["!"] == xs + ["!"];
    ApNameBody(v, st, header, body, |body|);
    ApNameClose(v, st, xs);
    var s := Run(v, st, xs).value;
    var c := Run(v, st, xs + ["!"]).value.cfg;
    assert c.apNames == if s.ctx.stored then st.cfg.apNames[s.ctx.key := s.ctx.ap] else st.cfg.apNames;
  }

  /** The '!' after an open ap-name block stores it exactly when it is marked stored. */
  lemma {:induction false} ApNameClose(v: Variant, st: ParseState, xs: seq<string>)
    requires Run(v, st, xs).Ok? && Run(v, st, xs).value.ctx.InApName?
    ensures var s := Run(v, st, xs).value;
      Run(v, st, xs + ["!"]) == Ok(ParseState(WriteBack(v, s.cfg, s.ctx), Outside, s.nextId))
  {
    var all := xs + ["!"];
    assert all[..|all| - 1] == xs && all[|all| - 1] == "!";
    CloseStep(v, Run(v, st, xs).value);
  }

  /*
   * sameapgroup's conf
   */

  /** Every line stripped and followed by a newline, in order. */
  function ConfText(lines: seq<string>): string
    decreases |lines|
  {
    if lines == [] then "" else ConfText(lines[..|lines| - 1]) + Strip(lines[|lines| - 1]) + "\n"
  }

  /** An ap-group header opens its block with an empty conf and leaves the dictionaries alone. */
  lemma {:induction false} ApGroupHeader(v: Variant, st: ParseState, header: string)
    requires st.ctx.Outside? && StartsWith(header, "ap-group ")
    ensures Step(v, st, header).Ok?
    ensures var s := Step(v, st, header).value;
      s.cfg == st.cfg && s.ctx.InApGroup? && s.ctx.key == Lower(Unquote(header[9..])) && s.ctx.group.conf == ""
  {
    assert header[..9] == "ap-group ";
    NotStartsWith(header, "ip access-list session ", 0);
    NotStartsWith(header, "user-role ", 0);
    NotStartsWith(header, "ap system-profile ", 2);
    NotStartsWith(header, "wlan ssid-profile ", 0);
    NotStartsWith(header, "wlan virtual-ap ", 0);
    assert HeaderOf(v, header) == Some((KApGroup, 9));
    assert Step(v, st, header) == Open(v, st, KApGroup, header[9..]);
  }

  /** In sameapgroup, the lines of an ap-group block so far make up its conf. */
  lemma {:induction false} ApGroupBody(st: ParseState, header: string, body: seq<string>, j: nat)
    requires st.ctx.Outside? && StartsWith(header, "ap-group ") && j <= |body|
    requires forall i :: 0 <= i < |body| ==> Strip(body[i]) != "!"
    requires Run(SameApGroup, st, [header] + body[..j]).Ok?
    ensures var s := Run(SameApGroup, st, [header] + body[..j]).value;
      s.cfg == st.cfg && s.ctx.InApGroup? && s.ctx.key == Lower(Unquote(header[9..])) && s.ctx.group.conf == ConfText(body[..j])
    decreases j
  {
    var v := SameApGroup;
    var xs := [header] + body[..j];
    if j == 0 {
      assert xs == [header];
      assert Run(v, st, [header]) == Step(v, st, header) by {
        assert [header][..0] == [];
      }
      ApGroupHeader(v, st, header);
    } else {
      var ys := [header] + body[..j - 1];
      assert xs[..|xs| - 1] == ys && xs[|xs| - 1] == body[j - 1];
      assert Run(v, st, xs) == (match Run(v, st, ys) case Err(e) => Err(e) case Ok(s) => Step(v, s, body[j - 1]));
      ApGroupBody(st, header, body, j - 1);
      assert body[..j][..j - 1] == body[..j - 1];
    }
  }

  /**
   * sameapgroup: once an ap-group block is closed, the group stored under its
   * lowercased name has as conf every stripped line of the block, each
   * followed by a newline, without the closing '!'.
   */
  lemma {:induction false} ApGroupConf(st: ParseState, header: string, body: seq<string>)
    requires st.ctx.Outside? && StartsWith(header, "ap-group ")
    requires forall i :: 0 <= i < |body| ==> Strip(body[i]) != "!"
    requires Run(SameApGroup, st, [header] + body + ["!"]).Ok?
    ensures var key := Lower(Unquote(header[9..]));
      var c := Run(SameApGroup, st, [header] + body + ["!"]).value.cfg;
      key in c.apGroups && c.apGroups[key].conf == ConfText(body)
  {
    var xs := [header] + body;
    assert body[..|body|] == body;
    ApGroupBody(st, header, body, |body|);
    ApGroupClose(st, xs);
  }

  /** The '!' after an open ap-group block stores the group under its key, with its conf as it is. */
  lemma {:induction false} ApGroupClose(st: ParseState, xs: seq<string>)
    requires Run(SameApGroup, st, xs).Ok? && Run(SameApGroup, st, xs).value.ctx.InApGroup?
    ensures Run(SameApGroup, st, xs + ["!"]).Ok?
    ensures var s := Run(SameApGroup, st, xs).value;
      var c := Run(SameApGroup, st, xs + ["!"]).value.cfg;
      s.ctx.key in c.apGroups && c.apGroups[s.ctx.key].conf == s.ctx.group.conf
  {
    var v := SameApGroup;
    var all := xs + ["!"];
    assert all[..|all| - 1] == xs && all[|all| - 1] == "!";
    var s := Run(v, st, xs).value;
    CloseStep(v, s);
    var g := s.ctx.group;
    var gs := s.cfg.apGroups[s.ctx.key := g];
    assert WriteBack(v, s.cfg, s.ctx).apGroups == if s.ctx.aliased then gs[g.name := g] else gs;
  }

  /*
   * Regulatory-domain bands
   */

  /** Each listed channel string gives its band. */
  lemma {:induction false} BandTable()
    ensures |KnownChsets| == |KnownBands| == 7
    ensures forall i :: 0 <= i < 7 ==> BandOf(KnownChsets[i]) == KnownBands[i]
  {
  }

  /** A band is Custom exactly when the channel string is none of the listed ones. */
  lemma {:induction false} CustomIffUnlisted(chset: string)
    ensures BandOf(chset) == "Custom" <==> chset !in KnownChsets
  {
  }

  /*
   * Undefined references
   */

  /** An undefined ssid-profile or virtual-ap reference raises KeyError; an undefined arm-profile never does. */
  lemma {:induction false} UndefinedReferences(v: Variant, st: ParseState, l: string)
    requires !st.ctx.Outside? && Strip(l) != "!"
    ensures var t := Strip(l);
      st.ctx.InVap? && StartsWith(t, "ssid-profile ") && !StartsWith(t, "aaa-profile ") && Unquote(t[13..]) !in st.cfg.ssids
      ==> Step(v, st, l) == Err(Undefined("ssid-profile", Unquote(t[13..])))
    ensures var t := Strip(l);
      (st.ctx.InApGroup? || st.ctx.InApName?) && StartsWith(t, "virtual-ap ") && Unquote(t[11..]) !in st.cfg.vaps
      ==> Step(v, st, l) == Err(Undefined("virtual-ap", Unquote(t[11..])))
    ensures st.ctx.InDot11a? || st.ctx.InDot11g? ==> Step(v, st, l).Ok?
  {
  }

  /** A line inside a context that its line function rejects stops the reader with that error. */
  lemma {:induction false} InsideErr(v: Variant, st: ParseState, l: string, e: ConfigError)
    requires !st.ctx.Outside? && Strip(l) != "!" && ContextLine(v, st.cfg, st.ctx, Strip(l)) == Err(e)
    ensures Step(v, st, l) == Err(e)
  {
  }

  /** In the rich variant, an undefined aaa-profile named in a virtual-ap block raises KeyError. */
  lemma {:induction false} UndefinedAaa(v: Variant, st: ParseState, l: string)
    requires !st.ctx.Outside? && Strip(l) != "!"
    ensures var t := Strip(l);
      Rich(v) && st.ctx.InVap? && StartsWith(t, "aaa-profile ") && Unquote(t[12..]) !in st.cfg.aaas
      ==> Step(v, st, l) == Err(Undefined("aaa-profile", Unquote(t[12..])))
  {
    var t := Strip(l);
    if Rich(v) && st.ctx.InVap? && StartsWith(t, "aaa-profile ") && Unquote(t[12..]) !in st.cfg.aaas {
      assert VapLine(v, st.cfg, st.ctx.vap, t) == Err(Undefined("aaa-profile", Unquote(t[12..])));
      InsideErr(v, st, l, Undefined("aaa-profile", Unquote(t[12..])));
    }
  }

  /** In the rich variant, an undefined ht-ssid-profile named in an ssid-profile block raises KeyError. */
  lemma {:induction false} UndefinedHtSsid(v: Variant, st: ParseState, l: string)
    requires !st.ctx.Outside? && Strip(l) != "!"
    ensures var t := Strip(l);
      Rich(v) && st.ctx.InSsid? && StartsWith(t, "ht-ssid-profile ") && Unquote(t[16..]) !in st.cfg.htSsids
      ==> Step(v, st, l) == Err(Undefined("ht-ssid-profile", Unquote(t[16..])))
  {
    var t := Strip(l);
    if Rich(v) && st.ctx.InSsid? && StartsWith(t, "ht-ssid-profile ") && Unquote(t[16..]) !in st.cfg.htSsids {
      SsidHtRef(v, st.cfg, st.ctx.ssid, t);
      InsideErr(v, st, l, Undefined("ht-ssid-profile", Unquote(t[16..])));
    }
  }

  /** The ssid-profile line function rejects an undefined ht-ssid-profile reference. */
  lemma {:induction false} SsidHtRef(v: Variant, cfg: Config, ssid: Ssid, t: string)
    requires Rich(v) && StartsWith(t, "ht-ssid-profile ") && Unquote(t[16..]) !in cfg.htSsids
    ensures SsidLine(v, cfg, ssid, t) == Err(Undefined("ht-ssid-profile", Unquote(t[16..])))
  {
    assert t[..16] == "ht-ssid-profile ";
    assert !StartsWith(t, "essid ") && !StartsWith(t, "opmode ") by { assert t[0] == 'h'; }
    assert !StartsWith(t, "hide-ssid") && !StartsWith(t, "no ssid-enable") by { assert t[1] == 't'; }
  }

  /** An undefined authentication-dot1x profile named in an aaa profile block raises KeyError. */
  lemma {:induction false} UndefinedDot1x(v: Variant, st: ParseState, l: string)
    requires !st.ctx.Outside? && Strip(l) != "!"
    ensures var t := Strip(l);
      st.ctx.InAaa? && StartsWith(t, "authentication-dot1x ") && Unquote(t[21..]) !in st.cfg.dot1xs
      ==> Step(v, st, l) == Err(Undefined("dot1x-profile", Unquote(t[21..])))
  {
    var t := Strip(l);
    if st.ctx.InAaa? && StartsWith(t, "authentication-dot1x ") && Unquote(t[21..]) !in st.cfg.dot1xs {
      assert t[..21] == "authentication-dot1x ";
      assert !StartsWith(t, "initial-role ") by { assert t[0] == 'a'; }
      assert AaaLine(st.cfg, st.ctx.aaa, t) == Err(Undefined("dot1x-profile", Unquote(t[21..])));
      InsideErr(v, st, l, Undefined("dot1x-profile", Unquote(t[21..])));
    }
  }

  /** An undefined dot11a radio profile named in an ap-group or ap-name block raises KeyError. */
  lemma {:induction false} UndefinedDot11a(v: Variant, st: ParseState, l: string)
    requires !st.ctx.Outside? && Strip(l) != "!"
    ensures var t := Strip(l);
      (st.ctx.InApGroup? || st.ctx.InApName?) && StartsWith(t, "dot11a-radio-profile ") && Unquote(t[21..]) !in st.cfg.dot11as
      ==> Step(v, st, l) == Err(Undefined("dot11a-radio-profile", Unquote(t[21..])))
  {
    var t := Strip(l);
    if (st.ctx.InApGroup? || st.ctx.InApName?) && StartsWith(t, "dot11a-radio-profile ") && Unquote(t[21..]) !in st.cfg.dot11as {
      RadioRefLine(v, st.cfg, st.ctx, t, "dot11a-radio-profile", Undefined("dot11a-radio-profile", Unquote(t[21..])));
      InsideErr(v, st, l, Undefined("dot11a-radio-profile", Unquote(t[21..])));
    }
  }

  /** An undefined dot11g radio profile named in an ap-group or ap-name block raises KeyError. */
  lemma {:induction false} UndefinedDot11g(v: Variant, st: ParseState, l: string)
    requires !st.ctx.Outside? && Strip(l) != "!"
    ensures var t := Strip(l);
      (st.ctx.InApGroup? || st.ctx.InApName?) && StartsWith(t, "dot11g-radio-profile ") && Unquote(t[21..]) !in st.cfg.dot11gs
      ==> Step(v, st, l) == Err(Undefined("dot11g-radio-profile", Unquote(t[21..])))
  {
    var t := Strip(l);
    if (st.ctx.InApGroup? || st.ctx.InApName?) && StartsWith(t, "dot11g-radio-profile ") && Unquote(t[21..]) !in st.cfg.dot11gs {
      RadioRefLine(v, st.cfg, st.ctx, t, "dot11g-radio-profile", Undefined("dot11g-radio-profile", Unquote(t[21..])));
      InsideErr(v, st, l, Undefined("dot11g-radio-profile", Unquote(t[21..])));
    }
  }

  /** In the rich variant, an undefined regulatory-domain profile named in an ap-group or ap-name block raises KeyError. */
  lemma {:induction false} UndefinedRegDom(v: Variant, st: ParseState, l: string)
    requires !st.ctx.Outside? && Strip(l) != "!"
    ensures var t := Strip(l);
      Rich(v) && (st.ctx.InApGroup? || st.ctx.InApName?) && StartsWith(t, "regulatory-domain-profile ") && Unquote(t[26..]) !in st.cfg.regDoms
      ==> Step(v, st, l) == Err(Undefined("regulatory-domain-profile", Unquote(t[26..])))
  {
    var t := Strip(l);
    if Rich(v) && (st.ctx.InApGroup? || st.ctx.InApName?) && StartsWith(t, "regulatory-domain-profile ") && Unquote(t[26..]) !in st.cfg.regDoms {
      RadioRefLine(v, st.cfg, st.ctx, t, "regulatory-domain-profile", Undefined("regulatory-domain-profile", Unquote(t[26..])));
      InsideErr(v, st, l, Undefined("regulatory-domain-profile", Unquote(t[26..])));
    }
  }

  /** The reference a radio or regulatory-domain profile line names is undefined. */
  predicate UndefinedRadioRef(v: Variant, cfg: Config, t: string, kind: string, e: ConfigError)
  {
    && StartsWith(t, kind + " ")
    && (kind == "dot11a-radio-profile" || kind == "dot11g-radio-profile" || kind == "regulatory-domain-profile")
    && (kind == "dot11a-radio-profile" ==> e == Undefined(kind, Unquote(t[21..])) && e.name !in cfg.dot11as)
    && (kind == "dot11g-radio-profile" ==> e == Undefined(kind, Unquote(t[21..])) && e.name !in cfg.dot11gs)
    && (kind == "regulatory-domain-profile" ==> Rich(v) && e == Undefined(kind, Unquote(t[26..])) && e.name !in cfg.regDoms)
  }

  /** The ap-group and ap-name line functions reject an undefined radio or regulatory-domain profile reference. */
  lemma {:induction false} RadioRefLine(v: Variant, cfg: Config, ctx: Context, t: string, kind: string, e: ConfigError)
    requires ctx.InApGroup? || ctx.InApName?
    requires UndefinedRadioRef(v, cfg, t, kind, e)
    ensures ContextLine(v, cfg, ctx, t) == Err(e)
  {
    if ctx.InApGroup? {
      GroupRadioRef(v, cfg, ctx.group, ctx.aliased, t, kind, e);
    } else {
      NameRadioRef(v, cfg, ctx.ap, ctx.stored, t, kind, e);
    }
  }

  /** A line starting with `kind` starts with none of the keywords the ap-group and ap-name blocks test before it. */
  lemma {:induction false} RadioRefPrefix(t: string, kind: string)
    requires StartsWith(t, kind + " ")
    requires kind == "dot11a-radio-profile" || kind == "dot11g-radio-profile" || kind == "regulatory-domain-profile"
    ensures !StartsWith(t, "virtual-ap ") && !StartsWith(t, "exclude-virtual-ap ")
    ensures kind != "dot11a-radio-profile" ==> !StartsWith(t, "dot11a-radio-profile ")
    ensures kind == "regulatory-domain-profile" ==> !StartsWith(t, "dot11g-radio-profile ")
  {
    assert t[..|kind| + 1] == kind + " ";
    assert t[0] == kind[0];
    if kind != "dot11a-radio-profile" {
      assert t[5] == kind[5];
    }
  }

  lemma {:induction false} GroupRadioRef(v: Variant, cfg: Config, g: ApGroup, aliased: bool, t: string, kind: string, e: ConfigError)
    requires UndefinedRadioRef(v, cfg, t, kind, e)
    ensures ApGroupLine(v, cfg, g, aliased, t) == Err(e)
  {
    RadioRefPrefix(t, kind);
  }

  lemma {:induction false} NameRadioRef(v: Variant, cfg: Config, a: ApName, stored: bool, t: string, kind: string, e: ConfigError)
    requires UndefinedRadioRef(v, cfg, t, kind, e)
    ensures ApNameLine(v, cfg, a, stored, t) == Err(e)
  {
    RadioRefPrefix(t, kind);
  }

  /**
   * In the rich variant a dot11a or dot11g radio-profile header looks up the
   * ARM profile 'default-a' or 'default-g', and raises KeyError when the
   * configuration has none.
   */
  lemma {:induction false} MissingDefaultA(v: Variant, st: ParseState, l: string)
    requires st.ctx.Outside? && Rich(v)
    ensures StartsWith(l, "rf dot11a-radio-profile ") && "default-a" !in st.cfg.arms
      ==> Step(v, st, l) == Err(Undefined("arm-profile", "default-a"))
  {
    if StartsWith(l, "rf dot11a-radio-profile ") {
      RadioHeaderOpens(v, st, l);
    }
  }

  /** The same for an 'rf dot11g-radio-profile' header and 'default-g'. */
  lemma {:induction false} MissingDefaultG(v: Variant, st: ParseState, l: string)
    requires st.ctx.Outside? && Rich(v)
    ensures StartsWith(l, "rf dot11g-radio-profile ") && "default-g" !in st.cfg.arms
      ==> Step(v, st, l) == Err(Undefined("arm-profile", "default-g"))
  {
    if StartsWith(l, "rf dot11g-radio-profile ") {
      RadioHeaderOpens(v, st, l);
    }
  }

  /** A radio-profile header outside any block opens the profile. */
  lemma {:induction false} RadioHeaderOpens(v: Variant, st: ParseState, l: string)
    requires st.ctx.Outside?
    ensures StartsWith(l, "rf dot11a-radio-profile ") ==> OutsideStep(v, st, l) == Open(v, st, KDot11a, l[24..])
    ensures StartsWith(l, "rf dot11g-radio-profile ") ==> OutsideStep(v, st, l) == Open(v, st, KDot11g, l[24..])
  {
    if StartsWith(l, "rf dot11a-radio-profile ") {
      assert l[..24] == "rf dot11a-radio-profile ";
      assert l[..4] == l[..24][..4] == "rf d";
      RfHeader(v, l);
      assert HeaderOf(v, l) == Some((KDot11a, 24));
    }
    if StartsWith(l, "rf dot11g-radio-profile ") {
      assert l[..24] == "rf dot11g-radio-profile ";
      assert l[..4] == l[..24][..4] == "rf d";
      RfHeader(v, l);
      assert !StartsWith(l, "rf dot11a-radio-profile ") by { assert l[8] == 'g'; }
      assert HeaderOf(v, l) == Some((KDot11g, 24));
    }
  }

  /** A line starting 'rf d' starts none of the keywords tested before the radio-profile headers. */
  lemma {:induction false} RfHeader(v: Variant, l: string)
    requires |l| >= 4 && l[..4] == "rf d"
    ensures !StartsWith(l, "ip access-list session ") && !StartsWith(l, "user-role ")
    ensures !StartsWith(l, "ap system-profile ") && !StartsWith(l, "wlan ssid-profile ") && !StartsWith(l, "wlan virtual-ap ")
    ensures !StartsWith(l, "ap-group ") && !StartsWith(l, "ap-name ") && !StartsWith(l, "rf arm-profile ")
  {
    assert l[0] == 'r' && l[3] == 'd';
  }
}
