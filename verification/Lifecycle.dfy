/** The lifecycle configuration codec, between decoded XML structures and the SDK's types. */
module Lifecycle {
  import opened Text
  import opened LifecycleDates

  const MAX_RULES := 1000
  const MAX_TRANSITIONS := 32
  const MAX_TAGS := 10
  const MAX_ID := 255
  const MAX_PREFIX := 1024
  const MAX_TAG_KEY := 128
  const MAX_TAG_VALUE := 256

  // The structures that are alike on both sides are declared once.
  datatype Tag = Tag(key: string, value: string)
  datatype And = And(prefix: Option<string>, tags: seq<Tag>, greater: Option<int>, less: Option<int>)
  datatype Filter = Filter(prefix: Option<string>, tag: Option<Tag>, both: Option<And>, greater: Option<int>, less: Option<int>)
  datatype NoncurrentExpiration = NoncurrentExpiration(days: Option<int>, newer: Option<int>)
  datatype AbortUploads = AbortUploads(days: Option<int>)

  datatype ExpirationXml = ExpirationXml(days: Option<int>, date: Option<string>, marker: Option<bool>)
  datatype Expiration = Expiration(days: Option<int>, date: Option<Civil>, marker: Option<bool>)

  datatype TransitionXml = TransitionXml(date: Option<string>, days: Option<int>, class_: Option<string>)
  datatype Transition = Transition(date: Option<Civil>, days: Option<int>, class_: string)

  datatype NoncurrentXml = NoncurrentXml(days: Option<int>, newer: Option<int>, class_: Option<string>)
  datatype Noncurrent = Noncurrent(days: Option<int>, newer: Option<int>, class_: string)

  datatype RuleXml = RuleXml(
    id: Option<string>, status: string, prefix: Option<string>, filter: Option<Filter>, expiration: Option<ExpirationXml>,
    transitions: seq<TransitionXml>, noncurrent: seq<NoncurrentXml>,
    noncurrentExpiration: Option<NoncurrentExpiration>, abort: Option<AbortUploads>)

  /** `prefix` is the deprecated field that only rules from upstream carry. */
  datatype Rule = Rule(
    id: Option<string>, enabled: bool, prefix: Option<string>, filter: Option<Filter>, expiration: Option<Expiration>,
    transitions: seq<Transition>, noncurrent: seq<Noncurrent>,
    noncurrentExpiration: Option<NoncurrentExpiration>, abort: Option<AbortUploads>)

  /** The time package's parser and the SDK's list of storage classes. */
  datatype Env = Env(parse: string -> Option<Civil>, classes: seq<string>)
  {
    ghost predicate Valid() {
      && Lawful(parse)
      && forall i :: 0 <= i < |classes| ==>
           classes[i] != "" && ToUpper(classes[i]) == classes[i] && TrimSpace(classes[i]) == classes[i]
    }
  }

  // ------------------------------------------------------------------------- optional parts

  /** An absent element decodes to an absent value; a present one must decode. */
  function Optional<A, B>(x: Option<A>, f: A -> Option<B>): (r: Option<Option<B>>) {
    if x.None? then Some(None) else
      var y := f(x.value);
      if y.None? then None else Some(Some(y.value))
  }

  /** Decoding a list stops at the first element that does not decode. */
  function Each<A, B>(xs: seq<A>, f: A -> Option<B>): (r: Option<seq<B>>) {
    if xs == [] then Some([])
    else
      var before := Each(xs[..|xs| - 1], f);
      var last := f(xs[|xs| - 1]);
      if before.None? || last.None? then None else Some(before.value + [last.value])
  }

  function Map<A, B>(xs: seq<A>, f: A -> B): (r: seq<B>)
    ensures |r| == |xs| && forall i :: 0 <= i < |xs| ==> r[i] == f(xs[i])
  {
    seq(|xs|, i requires 0 <= i < |xs| => f(xs[i]))
  }

  /** The loops of the decoder. */
  method DecodeEach<A, B>(xs: seq<A>, f: A -> Option<B>) returns (r: Option<seq<B>>)
    ensures r == Each(xs, f)
  {
    var out: seq<B> := [];
    for i := 0 to |xs|
      invariant Each(xs[..i], f) == Some(out)
    {
      var y := f(xs[i]);
      assert xs[..i + 1][..i] == xs[..i];
      if y.None? {
        EachFails(xs, f, i);
        return None;
      }
      out := out + [y.value];
    }
    assert xs[..|xs|] == xs;
    return Some(out);
  }

  /** The loops of the encoder. */
  method EncodeEach<A, B>(xs: seq<A>, f: A -> B) returns (r: seq<B>)
    ensures r == Map(xs, f)
  {
    r := [];
    for i := 0 to |xs|
      invariant |r| == i && forall j :: 0 <= j < i ==> r[j] == f(xs[j])
    {
      r := r + [f(xs[i])];
    }
  }

  lemma {:induction false} EachFails<A, B>(xs: seq<A>, f: A -> Option<B>, i: nat)
    requires i < |xs| && f(xs[i]).None?
    ensures Each(xs, f).None?
  {
    if i < |xs| - 1 { EachFails(xs[..|xs| - 1], f, i); }
  }

  lemma {:induction false} EachAt<A, B>(xs: seq<A>, f: A -> Option<B>)
    requires Each(xs, f).Some?
    ensures |Each(xs, f).value| == |xs| && forall i :: 0 <= i < |xs| ==> f(xs[i]) == Some(Each(xs, f).value[i])
  {
    if xs != [] { EachAt(xs[..|xs| - 1], f); }
  }

  lemma {:induction false} EachOf<A, B>(xs: seq<A>, f: A -> Option<B>, ys: seq<B>)
    requires |xs| == |ys| && forall i :: 0 <= i < |xs| ==> f(xs[i]) == Some(ys[i])
    ensures Each(xs, f) == Some(ys)
  {
    if xs != [] {
      EachOf(xs[..|xs| - 1], f, ys[..|ys| - 1]);
      assert ys == ys[..|ys| - 1] + [ys[|ys| - 1]];
    }
  }

  // ------------------------------------------------------------------------------- filters

  function DecodeTag(t: Tag): (r: Option<Tag>) {
    if t.key == "" || |t.key| > MAX_TAG_KEY || |t.value| > MAX_TAG_VALUE then None else Some(t)
  }

  function DecodePrefix(p: string): (r: Option<string>) { if |p| > MAX_PREFIX then None else Some(p) }

  function DecodeSize(n: int): (r: Option<int>) { if n < 0 then None else Some(n) }

  function DecodeAnd(x: And): (r: Option<And>) {
    var prefix := Optional(x.prefix, DecodePrefix);
    var greater, less := Optional(x.greater, DecodeSize), Optional(x.less, DecodeSize);
    if prefix.None? || greater.None? || less.None? then None
    else if x.greater.Some? && x.less.Some? && x.greater.value >= x.less.value then None
    else if |x.tags| > MAX_TAGS then None
    else
      var tags := Each(x.tags, DecodeTag);
      if tags.None? || (x.prefix.None? && x.greater.None? && x.less.None? && x.tags == []) then None
      else Some(And(prefix.value, tags.value, greater.value, less.value))
  }

  function Present<A>(x: Option<A>): (n: int) { if x.Some? then 1 else 0 }

  function DecodeFilter(x: Filter): (r: Option<Filter>) {
    var prefix, tag, both := Optional(x.prefix, DecodePrefix), Optional(x.tag, DecodeTag), Optional(x.both, DecodeAnd);
    var greater, less := Optional(x.greater, DecodeSize), Optional(x.less, DecodeSize);
    if prefix.None? || tag.None? || both.None? || greater.None? || less.None? then None
    else if Present(x.prefix) + Present(x.tag) + Present(x.both) + Present(x.greater) + Present(x.less) > 1 then None
    else Some(Filter(prefix.value, tag.value, both.value, greater.value, less.value))
  }

  // ----------------------------------------------------------------- expirations, transitions

  function Positive(n: int): (r: Option<int>) { if n <= 0 then None else Some(n) }

  function DecodeExpiration(env: Env, x: ExpirationXml): (r: Option<Expiration>) {
    var days, date := Optional(x.days, Positive), Optional(x.date, s => ParseDate(env.parse, s));
    if days.None? || date.None? || (x.days.None? && x.date.None? && x.marker.None?) then None
    else if x.marker.Some? && (x.days.Some? || x.date.Some?) then None
    else Some(Expiration(days.value, date.value, x.marker))
  }

  function FormatDate(c: Civil): (s: string) { if IsCivil(c) then Format(c) else "" }

  function FormatOptional(c: Option<Civil>): (s: Option<string>) { if c.None? then None else Some(FormatDate(c.value)) }

  function EncodeExpiration(e: Expiration): (x: ExpirationXml) { ExpirationXml(e.days, FormatOptional(e.date), e.marker) }

  /** parseTransitionStorageClass. */
  function DecodeClass(env: Env, v: string): (r: Option<string>) {
    var raw := ToUpper(TrimSpace(v));
    if raw != "" && raw in env.classes then Some(raw) else None
  }

  function DecodeTransition(env: Env, x: TransitionXml): (r: Option<Transition>) {
    var days, date := Optional(x.days, DecodeSize), Optional(x.date, s => ParseDate(env.parse, s));
    if days.None? || date.None? || x.days.Some? == x.date.Some? || x.class_.None? then None
    else
      var c := DecodeClass(env, x.class_.value);
      if c.None? then None else Some(Transition(date.value, days.value, c.value))
  }

  function EncodeClass(c: string): (r: Option<string>) { if c == "" then None else Some(c) }

  function EncodeTransition(t: Transition): (x: TransitionXml) {
    TransitionXml(FormatOptional(t.date), t.days, EncodeClass(t.class_))
  }

  function DecodeNoncurrent(env: Env, x: NoncurrentXml): (r: Option<Noncurrent>) {
    var days, newer := Optional(x.days, Positive), Optional(x.newer, Positive);
    if days.None? || newer.None? || x.days.None? || x.class_.None? then None
    else
      var c := DecodeClass(env, x.class_.value);
      if c.None? then None else Some(Noncurrent(days.value, newer.value, c.value))
  }

  function EncodeNoncurrent(t: Noncurrent): (x: NoncurrentXml) { NoncurrentXml(t.days, t.newer, EncodeClass(t.class_)) }

  function DecodeNoncurrentExpiration(x: NoncurrentExpiration): (r: Option<NoncurrentExpiration>) {
    var days, newer := Optional(x.days, Positive), Optional(x.newer, Positive);
    if days.None? || newer.None? || (x.days.None? && x.newer.None?) then None
    else Some(NoncurrentExpiration(days.value, newer.value))
  }

  function DecodeAbort(x: AbortUploads): (r: Option<AbortUploads>) {
    if x.days.None? || x.days.value <= 0 then None else Some(x)
  }

  // --------------------------------------------------------------------------------- rules

  function DecodeStatus(s: string): (r: Option<bool>) {
    var t := ToLower(TrimSpace(s));
    if t == "enabled" then Some(true) else if t == "disabled" then Some(false) else None
  }

  function EncodeStatus(enabled: bool): (s: string) { if enabled then "Enabled" else "Disabled" }

  function DecodeId(s: string): (r: Option<Option<string>>) {
    var id := TrimSpace(s);
    if |id| > MAX_ID then None else Some(if id == "" then None else Some(id))
  }

  function PrefixFilter(p: string): (f: Filter) { Filter(Some(p), None, None, None, None) }

  /** The filter of a rule: its own, or one made of its legacy prefix, but not both. */
  function DecodeRuleFilter(x: RuleXml): (r: Option<Option<Filter>>) {
    if x.prefix.Some? && x.filter.Some? then None
    else if x.prefix.Some? then
      var p := DecodePrefix(x.prefix.value);
      if p.None? then None else Some(Some(PrefixFilter(p.value)))
    else Optional(x.filter, DecodeFilter)
  }

  function DecodeRule(env: Env, x: RuleXml): (r: Option<Rule>) {
    var status := DecodeStatus(x.status);
    var id := if x.id.None? then Some(None) else DecodeId(x.id.value);
    var filter := DecodeRuleFilter(x);
    var expiration := Optional(x.expiration, e => DecodeExpiration(env, e));
    var transitions := if |x.transitions| > MAX_TRANSITIONS then None else Each(x.transitions, t => DecodeTransition(env, t));
    var noncurrent := if |x.noncurrent| > MAX_TRANSITIONS then None else Each(x.noncurrent, t => DecodeNoncurrent(env, t));
    var nce, abort := Optional(x.noncurrentExpiration, DecodeNoncurrentExpiration), Optional(x.abort, DecodeAbort);
    if status.None? || id.None? || filter.None? || expiration.None? || transitions.None? || noncurrent.None? || nce.None? || abort.None?
    then None
    else Some(Rule(id.value, status.value, None, filter.value, expiration.value, transitions.value, noncurrent.value,
                   nce.value, abort.value))
  }

  function EncodeRule(r: Rule): (x: RuleXml) {
    var filter := if r.filter.None? && r.prefix.Some? then Some(PrefixFilter(r.prefix.value)) else r.filter;
    RuleXml(r.id, EncodeStatus(r.enabled), None, filter,
            if r.expiration.None? then None else Some(EncodeExpiration(r.expiration.value)),
            Map(r.transitions, EncodeTransition), Map(r.noncurrent, EncodeNoncurrent), r.noncurrentExpiration, r.abort)
  }

  function Decode(env: Env, xs: seq<RuleXml>): (r: Option<seq<Rule>>) {
    if xs == [] || |xs| > MAX_RULES then None else Each(xs, x => DecodeRule(env, x))
  }

  function Encode(rules: seq<Rule>): (xs: seq<RuleXml>) { Map(rules, EncodeRule) }

  /** decodeLifecycleConfigXML after XML decoding, with its loop over the rules. */
  method DecodeConfig(env: Env, xs: seq<RuleXml>) returns (r: Option<seq<Rule>>)
    ensures r == Decode(env, xs)
  {
    if xs == [] || |xs| > MAX_RULES { return None; }
    r := DecodeEach(xs, x => DecodeRule(env, x));
  }

  /** encodeLifecycleConfigXML before XML encoding. */
  method EncodeConfig(rules: seq<Rule>) returns (xs: seq<RuleXml>)
    ensures xs == Encode(rules)
  {
    xs := EncodeEach(rules, EncodeRule);
  }
}
