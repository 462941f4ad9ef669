/** What a decoded rule is made of: every part of it stands in the XML, and the conditions on them. */
module LifecycleReading {
  import opened Text
  import opened LifecycleDates
  import opened Lifecycle
  import opened LifecycleRoundTrip

  predicate ReadsDate(env: Env, x: Option<string>, d: Option<Civil>) {
    x.Some? == d.Some? && (x.Some? ==> ParseDate(env.parse, x.value) == Some(d.value))
  }

  /** A storage class of the list, whatever its case and the space around it. */
  predicate ReadsClass(env: Env, x: Option<string>, c: string) {
    x.Some? && c == ToUpper(TrimSpace(x.value)) && c != "" && c in env.classes
  }

  predicate AtLeast(n: Option<int>, low: int) { n.Some? ==> n.value >= low }

  /** Days or a date or a marker; the marker stands alone. */
  predicate ReadsExpiration(env: Env, x: ExpirationXml, e: Expiration) {
    && e.days == x.days && e.marker == x.marker && ReadsDate(env, x.date, e.date) && AtLeast(x.days, 1)
    && (x.marker.Some? != (x.days.Some? || x.date.Some?))
  }

  lemma ExpirationReads(env: Env, x: ExpirationXml, e: Expiration)
    ensures DecodeExpiration(env, x) == Some(e) <==> ReadsExpiration(env, x, e)
  {
    hide ParseDate;
  }

  /** Days or a date, not both, and a class. */
  predicate ReadsTransition(env: Env, x: TransitionXml, t: Transition) {
    && t.days == x.days && ReadsDate(env, x.date, t.date) && AtLeast(x.days, 0) && x.days.Some? != x.date.Some?
    && ReadsClass(env, x.class_, t.class_)
  }

  lemma TransitionReads(env: Env, x: TransitionXml, t: Transition)
    ensures DecodeTransition(env, x) == Some(t) <==> ReadsTransition(env, x, t)
  {
    hide ParseDate, ToUpper, TrimSpace;
  }

  predicate ReadsNoncurrent(env: Env, x: NoncurrentXml, t: Noncurrent) {
    && t.days == x.days && t.newer == x.newer && x.days.Some? && AtLeast(x.days, 1) && AtLeast(x.newer, 1)
    && ReadsClass(env, x.class_, t.class_)
  }

  lemma NoncurrentReads(env: Env, x: NoncurrentXml, t: Noncurrent)
    ensures DecodeNoncurrent(env, x) == Some(t) <==> ReadsNoncurrent(env, x, t)
  {
    hide ToUpper, TrimSpace;
  }

  predicate GoodNoncurrentExpiration(x: NoncurrentExpiration) {
    (x.days.Some? || x.newer.Some?) && AtLeast(x.days, 1) && AtLeast(x.newer, 1)
  }

  predicate GoodAbort(x: AbortUploads) { x.days.Some? && x.days.value >= 1 }

  lemma SmallPartsRead(n: NoncurrentExpiration, a: AbortUploads)
    ensures DecodeNoncurrentExpiration(n) == if GoodNoncurrentExpiration(n) then Some(n) else None
    ensures DecodeAbort(a) == if GoodAbort(a) then Some(a) else None
  {}

  predicate GoodTag(t: Tag) { 0 < |t.key| <= 128 && |t.value| <= 256 }

  predicate GoodPrefix(p: Option<string>) { p.Some? ==> |p.value| <= 1024 }

  predicate GoodAnd(x: And) {
    && GoodPrefix(x.prefix) && AtLeast(x.greater, 0) && AtLeast(x.less, 0)
    && (x.greater.Some? && x.less.Some? ==> x.greater.value < x.less.value)
    && |x.tags| <= 10 && (forall i :: 0 <= i < |x.tags| ==> GoodTag(x.tags[i]))
    && (x.prefix.Some? || x.greater.Some? || x.less.Some? || x.tags != [])
  }

  /** At most one of the five conditions. */
  predicate GoodFilter(x: Filter) {
    && GoodPrefix(x.prefix) && (x.tag.Some? ==> GoodTag(x.tag.value)) && (x.both.Some? ==> GoodAnd(x.both.value))
    && AtLeast(x.greater, 0) && AtLeast(x.less, 0)
    && (if x.prefix.Some? then 1 else 0) + (if x.tag.Some? then 1 else 0) + (if x.both.Some? then 1 else 0)
       + (if x.greater.Some? then 1 else 0) + (if x.less.Some? then 1 else 0) <= 1
  }

  lemma TagsRead(tags: seq<Tag>)
    ensures Each(tags, DecodeTag).Some? <==> forall i :: 0 <= i < |tags| ==> GoodTag(tags[i])
  {
    if Each(tags, DecodeTag).Some? { EachAt(tags, DecodeTag); }
    if forall i :: 0 <= i < |tags| ==> GoodTag(tags[i]) { EachOf(tags, DecodeTag, tags); }
  }

  lemma AndReads(x: And)
    ensures DecodeAnd(x) == if GoodAnd(x) then Some(x) else None
  {
    TagsRead(x.tags);
    if DecodeAnd(x).Some? { AndSame(x); }
    hide Each, GoodTag;
  }

  lemma FilterReads(x: Filter)
    ensures DecodeFilter(x) == if GoodFilter(x) then Some(x) else None
  {
    if x.both.Some? { AndReads(x.both.value); }
    if DecodeFilter(x).Some? { FilterSame(x); }
    hide DecodeAnd, GoodAnd;
  }

  // ---------------------------------------------------------------------------------- rules

  lemma EachIff<A, B>(xs: seq<A>, f: A -> Option<B>, ys: seq<B>)
    ensures Each(xs, f) == Some(ys) <==> |ys| == |xs| && forall i :: 0 <= i < |xs| ==> f(xs[i]) == Some(ys[i])
  {
    if Each(xs, f) == Some(ys) { EachAt(xs, f); }
    if |ys| == |xs| && forall i :: 0 <= i < |xs| ==> f(xs[i]) == Some(ys[i]) { EachOf(xs, f, ys); }
  }

  predicate ReadsStatus(s: string, enabled: bool) { ToLower(TrimSpace(s)) == if enabled then "enabled" else "disabled" }

  predicate ReadsId(x: Option<string>, id: Option<string>) {
    if x.None? then id.None?
    else |TrimSpace(x.value)| <= 255 && id == if TrimSpace(x.value) == "" then None else Some(TrimSpace(x.value))
  }

  /** A legacy prefix stands for a filter of that prefix. */
  predicate ReadsFilter(x: RuleXml, f: Option<Filter>) {
    && !(x.prefix.Some? && x.filter.Some?) && GoodPrefix(x.prefix) && (x.filter.Some? ==> GoodFilter(x.filter.value))
    && f == if x.prefix.Some? then Some(Filter(x.prefix, None, None, None, None)) else x.filter
  }

  predicate ReadsTransitions(env: Env, xs: seq<TransitionXml>, ts: seq<Transition>) {
    |xs| <= 32 && |ts| == |xs| && forall i :: 0 <= i < |xs| ==> ReadsTransition(env, xs[i], ts[i])
  }

  predicate ReadsNoncurrents(env: Env, xs: seq<NoncurrentXml>, ts: seq<Noncurrent>) {
    |xs| <= 32 && |ts| == |xs| && forall i :: 0 <= i < |xs| ==> ReadsNoncurrent(env, xs[i], ts[i])
  }

  predicate ReadsOptional(env: Env, x: Option<ExpirationXml>, e: Option<Expiration>) {
    x.Some? == e.Some? && (x.Some? ==> ReadsExpiration(env, x.value, e.value))
  }

  predicate ReadsRule(env: Env, x: RuleXml, r: Rule) {
    && ReadsStatus(x.status, r.enabled) && ReadsId(x.id, r.id) && r.prefix.None? && ReadsFilter(x, r.filter)
    && ReadsOptional(env, x.expiration, r.expiration)
    && ReadsTransitions(env, x.transitions, r.transitions) && ReadsNoncurrents(env, x.noncurrent, r.noncurrent)
    && r.noncurrentExpiration == x.noncurrentExpiration
    && (x.noncurrentExpiration.Some? ==> GoodNoncurrentExpiration(x.noncurrentExpiration.value))
    && r.abort == x.abort && (x.abort.Some? ==> GoodAbort(x.abort.value))
  }

  lemma HeadReads(x: RuleXml, enabled: bool, id: Option<string>, f: Option<Filter>)
    ensures DecodeStatus(x.status) == Some(enabled) <==> ReadsStatus(x.status, enabled)
    ensures (if x.id.None? then Some(None) else DecodeId(x.id.value)) == Some(id) <==> ReadsId(x.id, id)
    ensures DecodeRuleFilter(x) == Some(f) <==> ReadsFilter(x, f)
  {
    hide TrimSpace, ToLower, DecodeFilter, GoodFilter;
    if x.filter.Some? { FilterReads(x.filter.value); }
    StatusWords(x.status, enabled);
  }

  lemma StatusWords(s: string, enabled: bool)
    ensures DecodeStatus(s) == Some(enabled) <==> ReadsStatus(s, enabled)
  {
    hide TrimSpace, ToLower;
    assert |"enabled"| == 7 && |"disabled"| == 8;
  }

  lemma ListsRead(env: Env, x: RuleXml, ts: seq<Transition>, ns: seq<Noncurrent>)
    ensures |x.transitions| <= 32 && Each(x.transitions, t => DecodeTransition(env, t)) == Some(ts) <==> ReadsTransitions(env, x.transitions, ts)
    ensures |x.noncurrent| <= 32 && Each(x.noncurrent, t => DecodeNoncurrent(env, t)) == Some(ns) <==> ReadsNoncurrents(env, x.noncurrent, ns)
  {
    hide Each, DecodeTransition, DecodeNoncurrent, ReadsTransition, ReadsNoncurrent;
    EachIff(x.transitions, t => DecodeTransition(env, t), ts);
    EachIff(x.noncurrent, t => DecodeNoncurrent(env, t), ns);
    forall i | 0 <= i < |x.transitions| && |ts| == |x.transitions|
      ensures DecodeTransition(env, x.transitions[i]) == Some(ts[i]) <==> ReadsTransition(env, x.transitions[i], ts[i])
    {
      TransitionReads(env, x.transitions[i], ts[i]);
    }
    forall i | 0 <= i < |x.noncurrent| && |ns| == |x.noncurrent|
      ensures DecodeNoncurrent(env, x.noncurrent[i]) == Some(ns[i]) <==> ReadsNoncurrent(env, x.noncurrent[i], ns[i])
    {
      NoncurrentReads(env, x.noncurrent[i], ns[i]);
    }
  }

  lemma TailReads(env: Env, x: RuleXml, e: Option<Expiration>, n: Option<NoncurrentExpiration>, a: Option<AbortUploads>)
    ensures Optional(x.expiration, y => DecodeExpiration(env, y)) == Some(e) <==> ReadsOptional(env, x.expiration, e)
    ensures Optional(x.noncurrentExpiration, DecodeNoncurrentExpiration) == Some(n) <==>
            n == x.noncurrentExpiration && (n.Some? ==> GoodNoncurrentExpiration(n.value))
    ensures Optional(x.abort, DecodeAbort) == Some(a) <==> a == x.abort && (a.Some? ==> GoodAbort(a.value))
  {
    hide DecodeExpiration, ReadsExpiration;
    if x.expiration.Some? && e.Some? { ExpirationReads(env, x.expiration.value, e.value); }
    if x.noncurrentExpiration.Some? { SmallPartsRead(x.noncurrentExpiration.value, AbortUploads(None)); }
    if x.abort.Some? { SmallPartsRead(NoncurrentExpiration(None, None), x.abort.value); }
  }

  /** A rule decodes to exactly what stands in it, part by part, and exactly if every part is good. */
  lemma RuleReads(env: Env, x: RuleXml, r: Rule)
    ensures DecodeRule(env, x) == Some(r) <==> ReadsRule(env, x, r)
  {
    hide DecodeStatus, DecodeId, DecodeRuleFilter, Each, DecodeExpiration, DecodeTransition, DecodeNoncurrent, DecodeNoncurrentExpiration,
         DecodeAbort, Optional, ReadsStatus, ReadsId, ReadsFilter, ReadsTransitions, ReadsNoncurrents, ReadsOptional,
         GoodNoncurrentExpiration, GoodAbort;
    HeadReads(x, r.enabled, r.id, r.filter);
    ListsRead(env, x, r.transitions, r.noncurrent);
    TailReads(env, x, r.expiration, r.noncurrentExpiration, r.abort);
  }

  /** A configuration is read rule by rule, 1 to 1000 of them. */
  lemma ConfigReads(env: Env, xs: seq<RuleXml>, rules: seq<Rule>)
    ensures Decode(env, xs) == Some(rules) <==>
            1 <= |xs| <= 1000 && |rules| == |xs| && forall i :: 0 <= i < |xs| ==> ReadsRule(env, xs[i], rules[i])
  {
    hide Each, DecodeRule, ReadsRule;
    EachIff(xs, x => DecodeRule(env, x), rules);
    forall i | 0 <= i < |xs| && |rules| == |xs| ensures DecodeRule(env, xs[i]) == Some(rules[i]) <==> ReadsRule(env, xs[i], rules[i]) {
      RuleReads(env, xs[i], rules[i]);
    }
  }
}
