/** Encoding and decoding again. */
module LifecycleRoundTrip {
  import opened Text
  import opened LifecycleDates
  import opened Lifecycle

  // ------------------------------------------------- parts that decode to themselves or not at all

  lemma TagsSame(tags: seq<Tag>)
    requires Each(tags, DecodeTag).Some?
    ensures Each(tags, DecodeTag).value == tags
  {
    EachAt(tags, DecodeTag);
  }

  lemma AndSame(x: And)
    requires DecodeAnd(x).Some?
    ensures DecodeAnd(x) == Some(x)
  {
    TagsSame(x.tags);
  }

  lemma FilterSame(x: Filter)
    requires DecodeFilter(x).Some?
    ensures DecodeFilter(x) == Some(x)
  {
    if x.both.Some? { AndSame(x.both.value); }
    hide DecodeAnd;
  }

  lemma NoncurrentExpirationSame(x: NoncurrentExpiration)
    requires DecodeNoncurrentExpiration(x).Some?
    ensures DecodeNoncurrentExpiration(x) == Some(x)
  {}

  // ---------------------------------------------------------------------------- dated parts

  predicate DateOk(c: Option<Civil>) { c.Some? ==> 0 <= c.value.year < 10000 }

  function CutDate(c: Option<Civil>): (r: Option<Civil>) { if c.None? then None else Some(ToMillis(c.value)) }

  predicate IsDate(c: Option<Civil>) { c.Some? ==> IsCivil(c.value) }

  /** An optional date goes out and comes back, cut, exactly when its year prints with four digits. */
  lemma OptionalDate(env: Env, c: Option<Civil>)
    requires env.Valid() && IsDate(c)
    ensures Optional(FormatOptional(c), s => ParseDate(env.parse, s)) == if DateOk(c) then Some(CutDate(c)) else None
  {
    if c.Some? { DateRoundTrip(env.parse, c.value); }
    hide ParseDate, Format;
  }

  function CutExpiration(e: Expiration): (r: Expiration) { e.(date := CutDate(e.date)) }

  lemma DecodedDate(env: Env, x: Option<string>)
    requires env.Valid() && Optional(x, s => ParseDate(env.parse, s)).Some?
    ensures IsDate(Optional(x, s => ParseDate(env.parse, s)).value)
  {
    hide TrimSpace;
  }

  lemma ExpirationTrip(env: Env, x: ExpirationXml, e: Expiration)
    requires env.Valid() && DecodeExpiration(env, x) == Some(e)
    ensures DecodeExpiration(env, EncodeExpiration(e)) == if DateOk(e.date) then Some(CutExpiration(e)) else None
  {
    DecodedDate(env, x.date);
    hide ParseDate, FormatOptional;
    OptionalDate(env, e.date);
    FormatPresence(e.date);
  }

  lemma FormatPresence(c: Option<Civil>)
    ensures FormatOptional(c).Some? <==> c.Some?
  {}

  lemma ClassTrip(env: Env, v: string, c: string)
    requires env.Valid() && DecodeClass(env, v) == Some(c)
    ensures EncodeClass(c) == Some(c) && DecodeClass(env, c) == Some(c)
  {
    hide TrimSpace, ToUpper;
    var i :| 0 <= i < |env.classes| && env.classes[i] == c;
  }

  function CutTransition(t: Transition): (r: Transition) { t.(date := CutDate(t.date)) }

  lemma TransitionTrip(env: Env, x: TransitionXml, t: Transition)
    requires env.Valid() && DecodeTransition(env, x) == Some(t)
    ensures DecodeTransition(env, EncodeTransition(t)) == if DateOk(t.date) then Some(CutTransition(t)) else None
  {
    hide DecodeTransition, EncodeTransition, CutTransition, DecodeClass, EncodeClass;
    DecodedTransition(env, x, t);
    ClassTrip(env, x.class_.value, t.class_);
    TransitionOut(env, t);
  }

  predicate OnceTimed(t: Transition) { t.days.Some? != t.date.Some? && (t.days.Some? ==> t.days.value >= 0) }

  lemma DecodedTransition(env: Env, x: TransitionXml, t: Transition)
    requires env.Valid() && DecodeTransition(env, x) == Some(t)
    ensures IsDate(t.date) && OnceTimed(t) && x.class_.Some? && DecodeClass(env, x.class_.value) == Some(t.class_)
  {
    hide DecodeClass, ParseDate;
    DecodedDate(env, x.date);
    hide IsDate;
  }

  lemma TransitionOut(env: Env, t: Transition)
    requires env.Valid() && IsDate(t.date) && OnceTimed(t)
    requires EncodeClass(t.class_) == Some(t.class_) && DecodeClass(env, t.class_) == Some(t.class_)
    ensures DecodeTransition(env, EncodeTransition(t)) == if DateOk(t.date) then Some(CutTransition(t)) else None
  {
    hide ParseDate, FormatOptional, DecodeClass, EncodeClass, Env.Valid, DateOk;
    OptionalDate(env, t.date);
    FormatPresence(t.date);
  }

  lemma NoncurrentTrip(env: Env, x: NoncurrentXml, t: Noncurrent)
    requires env.Valid() && DecodeNoncurrent(env, x) == Some(t)
    ensures DecodeNoncurrent(env, EncodeNoncurrent(t)) == Some(t)
  {
    hide DecodeClass;
    ClassTrip(env, x.class_.value, t.class_);
  }

  // --------------------------------------------------------------------------------- lists

  predicate TransitionsOk(ts: seq<Transition>) { forall i :: 0 <= i < |ts| ==> DateOk(ts[i].date) }

  lemma TransitionsTrip(env: Env, xs: seq<TransitionXml>, ts: seq<Transition>)
    requires env.Valid() && Each(xs, x => DecodeTransition(env, x)) == Some(ts)
    ensures |ts| == |xs|
    ensures Each(Map(ts, EncodeTransition), x => DecodeTransition(env, x)) ==
            if TransitionsOk(ts) then Some(Map(ts, CutTransition)) else None
  {
    hide DecodeTransition, EncodeTransition, Each, Map, DateOk, CutTransition, Env.Valid;
    var f := x => DecodeTransition(env, x);
    EachAt(xs, f);
    forall i | 0 <= i < |ts|
      ensures f(Map(ts, EncodeTransition)[i]) == if DateOk(ts[i].date) then Some(CutTransition(ts[i])) else None
    {
      assert f(xs[i]) == Some(ts[i]);
      TransitionTrip(env, xs[i], ts[i]);
    }
    if TransitionsOk(ts) {
      EachOf(Map(ts, EncodeTransition), f, Map(ts, CutTransition));
    } else {
      var i :| 0 <= i < |ts| && !DateOk(ts[i].date);
      EachFails(Map(ts, EncodeTransition), f, i);
    }
  }

  lemma NoncurrentsTrip(env: Env, xs: seq<NoncurrentXml>, ts: seq<Noncurrent>)
    requires env.Valid() && Each(xs, x => DecodeNoncurrent(env, x)) == Some(ts)
    ensures |ts| == |xs|
    ensures Each(Map(ts, EncodeNoncurrent), x => DecodeNoncurrent(env, x)) == Some(ts)
  {
    hide DecodeNoncurrent, EncodeNoncurrent, Each, Map, Env.Valid;
    var f := x => DecodeNoncurrent(env, x);
    EachAt(xs, f);
    forall i | 0 <= i < |ts| ensures f(Map(ts, EncodeNoncurrent)[i]) == Some(ts[i]) {
      assert f(xs[i]) == Some(ts[i]);
      NoncurrentTrip(env, xs[i], ts[i]);
    }
    EachOf(Map(ts, EncodeNoncurrent), f, ts);
  }

  // --------------------------------------------------------------------------------- rules

  predicate RuleOk(r: Rule) { (r.expiration.Some? ==> DateOk(r.expiration.value.date)) && TransitionsOk(r.transitions) }

  function CutRule(r: Rule): (s: Rule) {
    r.(expiration := if r.expiration.None? then None else Some(CutExpiration(r.expiration.value)),
       transitions := Map(r.transitions, CutTransition))
  }

  lemma StatusTrip(enabled: bool)
    ensures DecodeStatus(EncodeStatus(enabled)) == Some(enabled)
  {
    var s := EncodeStatus(enabled);
    TrimSpaceKeeps(s);
    hide TrimSpace;
    assert ToLower("Enabled") == "enabled" && ToLower("Disabled") == "disabled";
  }

  lemma IdTrip(s: string)
    requires DecodeId(s).Some?
    ensures var id := DecodeId(s).value; id.Some? ==> DecodeId(id.value) == Some(id)
  {
    TrimSpaceKeeps(TrimSpace(s));
    hide TrimSpace;
  }

  lemma RuleFilterTrip(x: RuleXml, filter: Option<Filter>)
    requires DecodeRuleFilter(x) == Some(filter)
    ensures Optional(filter, DecodeFilter) == Some(filter)
  {
    if x.filter.Some? && x.prefix.None? { FilterSame(x.filter.value); }
  }

  lemma ExpirationPart(env: Env, x: Option<ExpirationXml>, e: Option<Expiration>)
    requires env.Valid() && Optional(x, v => DecodeExpiration(env, v)) == Some(e)
    ensures Optional(if e.None? then None else Some(EncodeExpiration(e.value)), v => DecodeExpiration(env, v)) ==
            if e.Some? && !DateOk(e.value.date) then None
            else Some(if e.None? then None else Some(CutExpiration(e.value)))
  {
    hide DecodeExpiration, EncodeExpiration;
    if x.Some? { ExpirationTrip(env, x.value, e.value); }
  }

  /** A rule that was decoded encodes and decodes again, exactly when its dates print with four-digit
      years, to itself with its dates cut to milliseconds. */
  lemma RuleTrip(env: Env, x: RuleXml, r: Rule)
    requires env.Valid() && DecodeRule(env, x) == Some(r)
    ensures DecodeRule(env, EncodeRule(r)) == if RuleOk(r) then Some(CutRule(r)) else None
  {
    hide DecodeStatus, EncodeStatus, DecodeId, DecodeFilter, DecodeExpiration, EncodeExpiration, Each, Map,
         DecodeNoncurrentExpiration, DecodeTransition, DecodeNoncurrent, TransitionsOk;
    StatusTrip(r.enabled);
    if x.id.Some? { IdTrip(x.id.value); }
    RuleFilterTrip(x, r.filter);
    ExpirationPart(env, x.expiration, r.expiration);
    TransitionsTrip(env, x.transitions, r.transitions);
    NoncurrentsTrip(env, x.noncurrent, r.noncurrent);
    if x.noncurrentExpiration.Some? { NoncurrentExpirationSame(x.noncurrentExpiration.value); }
  }

  // ------------------------------------------------------------------------ configurations

  predicate RulesOk(rules: seq<Rule>) { forall i :: 0 <= i < |rules| ==> RuleOk(rules[i]) }

  /** Every configuration that decode accepts encodes and decodes again to the same rules with
      their dates cut to milliseconds, if and only if all its dates fall, in UTC, into the years 0
      to 9999; otherwise the encoded form is rejected. */
  lemma ConfigTrip(env: Env, xs: seq<RuleXml>, rules: seq<Rule>)
    requires env.Valid() && Decode(env, xs) == Some(rules)
    ensures Decode(env, Encode(rules)) == if RulesOk(rules) then Some(Map(rules, CutRule)) else None
  {
    hide DecodeRule, EncodeRule, RuleOk, Each, Map, CutRule, Env.Valid;
    var f := x => DecodeRule(env, x);
    EachAt(xs, f);
    forall i | 0 <= i < |rules|
      ensures f(Encode(rules)[i]) == if RuleOk(rules[i]) then Some(CutRule(rules[i])) else None
    {
      assert f(xs[i]) == Some(rules[i]);
      RuleTrip(env, xs[i], rules[i]);
    }
    if RulesOk(rules) {
      EachOf(Encode(rules), f, Map(rules, CutRule));
    } else {
      var i :| 0 <= i < |rules| && !RuleOk(rules[i]);
      EachFails(Encode(rules), f, i);
    }
  }

  /** A legacy Prefix decodes like a Filter with that prefix, and a legacy prefix from upstream
      encodes like one. */
  lemma LegacyPrefix(env: Env, x: RuleXml, r: Rule, p: string)
    requires x.prefix == Some(p) && x.filter.None? && r.prefix == Some(p) && r.filter.None?
    ensures DecodeRule(env, x) == DecodeRule(env, x.(prefix := None, filter := Some(PrefixFilter(p))))
    ensures EncodeRule(r) == EncodeRule(r.(prefix := None, filter := Some(PrefixFilter(p))))
  {
    hide DecodeStatus, DecodeId, Each, Map;
  }

  const LATE := "9999-12-31T23:59:59-01:00"
  const LATE_UTC := Civil(10000, 1, 1, 0, 59, 59, 0)

  /** A rule that only expires objects on a date. */
  function ExpiryXml(date: string): (x: RuleXml) {
    RuleXml(None, EncodeStatus(true), None, None, Some(ExpirationXml(None, Some(date), None)), [], [], None, None)
  }

  function Expiry(date: Civil): (r: Rule) {
    Rule(None, true, None, None, Some(Expiration(None, Some(date), None)), [], [], None, None)
  }

  lemma ExpiryDecodes(env: Env, date: string, c: Civil)
    requires ParseDate(env.parse, date) == Some(c)
    ensures DecodeRule(env, ExpiryXml(date)) == Some(Expiry(c))
  {
    hide ParseDate, DecodeStatus, EncodeStatus;
    StatusTrip(true);
  }

  /** An expiration at the last second of 9999 an hour behind UTC is accepted, but the encoded form
      of the rule is not. */
  lemma LateDateDoesNotReturn(env: Env)
    requires env.Valid() && env.parse(LATE) == Some(LATE_UTC)
    ensures Decode(env, [ExpiryXml(LATE)]) == Some([Expiry(LATE_UTC)])
    ensures Decode(env, Encode([Expiry(LATE_UTC)])) == None
  {
    hide DecodeRule, Encode, EncodeStatus, ParseDate, Each, Env.Valid, ExpiryXml;
    LateDateParses(env);
    ExpiryDecodes(env, LATE, LATE_UTC);
    EachOf([ExpiryXml(LATE)], x => DecodeRule(env, x), [Expiry(LATE_UTC)]);
    ConfigTrip(env, [ExpiryXml(LATE)], [Expiry(LATE_UTC)]);
    assert !RuleOk([Expiry(LATE_UTC)][0]);
  }

  lemma LateDateParses(env: Env)
    requires env.parse(LATE) == Some(LATE_UTC)
    ensures ParseDate(env.parse, LATE) == Some(LATE_UTC)
  {
    hide TrimSpace;
    assert LATE[0] == '9' && LATE[|LATE| - 1] == '0';
    TrimSpaceKeeps(LATE);
  }
}
