/**
 * Conversion of a v3 GlobalNetworkPolicy resource and its key into the v1
 * backend form consumed by the dataplane. The conversion calls four helpers
 * defined elsewhere (selector prefixing, rule conversion, policy-type
 * conversion and tier derivation from the policy name) and two label-prefix
 * constants; all of them are parameters here, so every property below holds
 * whatever those helpers do.
 */
module PolicyConversion {
  import opened Wrappers
  import opened Strings

  datatype Error = Error(msg: string)

  const MissingNameMessage: string := "Missing Name field to create a v1 NetworkPolicy Key"
  const NotPolicyMessage: string := "Value is not a valid GlobalNetworkPolicy resource value"

  /** The selector wildcard and its two replacements. */
  const AllSelector: string := "all()"
  const HasNamespace: string := "has(projectcalico.org/namespace)"
  const HasServiceAccount: string := "has(projectcalico.org/serviceaccount)"

  /** A v3 resource key. */
  datatype ResourceKey = ResourceKey(kind: string, namespace: string, name: string)

  /** A v1 policy key; `PolicyKey("", "")` is Go's zero value. */
  datatype PolicyKey = PolicyKey(name: string, tier: string)

  const EmptyPolicyKey: PolicyKey := PolicyKey("", "")

  /** The spec of a v3 GlobalNetworkPolicy, over the v3 rule type `R`. */
  datatype PolicySpec<R> = PolicySpec(
    tier: string,
    order: Option<real>,
    ingress: seq<R>,
    egress: seq<R>,
    selector: string,
    types: seq<string>,
    doNotTrack: bool,
    preDNAT: bool,
    applyOnForward: bool,
    serviceAccountSelector: string,
    namespaceSelector: string,
    performanceHints: seq<string>)

  datatype GlobalNetworkPolicy<R> = GlobalNetworkPolicy(name: string, spec: PolicySpec<R>)

  /** The untyped value handed to the value converter. */
  datatype Value<R> = PolicyValue(policy: GlobalNetworkPolicy<R>) | OtherValue(kind: string)

  /** A v1 backend policy, over the backend rule type `B`. */
  datatype Policy<B> = Policy(
    namespace: string,
    order: Option<real>,
    inboundRules: seq<B>,
    outboundRules: seq<B>,
    selector: string,
    types: seq<string>,
    doNotTrack: bool,
    preDNAT: bool,
    applyOnForward: bool,
    performanceHints: seq<string>)

  /** The helpers and constants the conversion calls but that are not part of this model. */
  datatype Helpers<!R, B> = Helpers(
    prefixAndAppendSelector: (string, string, string) -> string,
    namespaceLabelPrefix: string,
    serviceAccountLabelPrefix: string,
    rulesToBackend: (seq<R>, string) -> seq<B>,
    policyTypesToBackend: seq<string> -> seq<string>)

  // ---------------------------------------------------------------------
  // Key conversion
  // ---------------------------------------------------------------------

  /** convertGlobalNetworkPolicyV3ToV1Key; `tierOf` is the tier-from-name helper. */
  function ConvertKey(tierOf: string -> (string, Option<Error>), k: ResourceKey): (r: (PolicyKey, Option<Error>))
    ensures r.1.None? <==> k.name != "" && tierOf(k.name).1.None?
    ensures r.1.Some? ==> r.0 == EmptyPolicyKey
    ensures k.name == "" ==> r.1 == Some(Error(MissingNameMessage))
    ensures k.name != "" && tierOf(k.name).1.Some? ==> r.1 == tierOf(k.name).1
    ensures r.1.None? ==> r.0.name == k.name && r.0.tier == tierOf(k.name).0 && r.0 != EmptyPolicyKey
  {
    if k.name == "" then
      (EmptyPolicyKey, Some(Error(MissingNameMessage)))
    else
      var (tier, err) := tierOf(k.name);
      if err.Some? then (EmptyPolicyKey, err)
      else (PolicyKey(k.name, tier), None)
  }

  // ---------------------------------------------------------------------
  // Selector rewriting
  // ---------------------------------------------------------------------

  /** "all()" does not occur in `s`. */
  ghost predicate NoAll(s: string) {
    forall i: nat :: !OccursAt(AllSelector, s, i)
  }

  /** The only '(' in either replacement text is the one after "has". */
  lemma ReplacementShape(rep: string)
    requires rep == HasNamespace || rep == HasServiceAccount
    ensures |rep| > 4 && rep[0] == 'h'
    ensures forall j :: 0 <= j < |rep| && rep[j] == '(' ==> j == 3
    ensures rep[|rep| - 1] == ')'
  {
  }

  /** Neither replacement text can create a new "all()" when substituted. */
  lemma ReplacementIsSafe(rep: string)
    requires rep == HasNamespace || rep == HasServiceAccount
    ensures forall j: nat :: !OccursAt(AllSelector, rep, j)
    ensures forall n :: 0 < n < |AllSelector| && n <= |rep| ==> rep[|rep| - n..] != AllSelector[..n]
    ensures forall j :: 0 < j < |AllSelector| ==> AllSelector[j] != rep[0]
  {
    ReplacementShape(rep);
    forall j: nat ensures !OccursAt(AllSelector, rep, j) {
      if j + |AllSelector| <= |rep| {
        // the window's first character is not 'a', or its fourth is not '('
        assert rep[j..j + |AllSelector|][0] == rep[j];
        assert rep[j..j + |AllSelector|][3] == rep[j + 3];
      }
    }
    forall n | 0 < n < |AllSelector| && n <= |rep| ensures rep[|rep| - n..] != AllSelector[..n] {
      assert rep[|rep| - n..][n - 1] == rep[|rep| - 1] == ')';
      assert AllSelector[..n][n - 1] != ')';
    }
  }

  /**
   * One selector step: when the sub-selector is non-empty, combine it into
   * the selector with its label prefix and replace every "all()" by `rep`.
   */
  function RewriteStep(prefixAndAppend: (string, string, string) -> string,
                       sel: string, sub: string, prefix: string, rep: string): (r: string)
    requires rep == HasNamespace || rep == HasServiceAccount
    ensures sub == "" ==> r == sel
    ensures sub != "" ==> NoAll(r)
  {
    if sub == "" then sel
    else
      ReplacementIsSafe(rep);
      ReplaceAllLeavesNoOccurrence(prefixAndAppend(sel, sub, prefix), AllSelector, rep);
      ReplaceAll(prefixAndAppend(sel, sub, prefix), AllSelector, rep)
  }

  /** The selector of the converted policy: namespace step, then service-account step. */
  function ConvertSelector<R, B>(h: Helpers<R, B>, spec: PolicySpec<R>): (r: string)
    ensures spec.namespaceSelector == "" && spec.serviceAccountSelector == "" ==> r == spec.selector
    ensures spec.namespaceSelector != "" || spec.serviceAccountSelector != "" ==> NoAll(r)
  {
    var s1 := RewriteStep(h.prefixAndAppendSelector, spec.selector, spec.namespaceSelector,
                          h.namespaceLabelPrefix, HasNamespace);
    RewriteStep(h.prefixAndAppendSelector, s1, spec.serviceAccountSelector,
                h.serviceAccountLabelPrefix, HasServiceAccount)
  }

  /**
   * The namespace rewrite runs first. With neither sub-selector the selector
   * is kept; with one of them every "all()" of its combination becomes that
   * step's test; with both, the service-account step combines the output of
   * the namespace step, which already holds no "all()", so it replaces only
   * the wildcards its own combination introduced.
   */
  lemma NamespaceRewriteFirst<R, B>(h: Helpers<R, B>, spec: PolicySpec<R>)
    ensures spec.namespaceSelector == "" && spec.serviceAccountSelector == "" ==>
      ConvertSelector(h, spec) == spec.selector
    ensures spec.namespaceSelector != "" && spec.serviceAccountSelector == "" ==>
      ConvertSelector(h, spec)
        == ReplaceAll(h.prefixAndAppendSelector(spec.selector, spec.namespaceSelector, h.namespaceLabelPrefix),
                      AllSelector, HasNamespace)
    ensures spec.namespaceSelector == "" && spec.serviceAccountSelector != "" ==>
      ConvertSelector(h, spec)
        == ReplaceAll(h.prefixAndAppendSelector(spec.selector, spec.serviceAccountSelector, h.serviceAccountLabelPrefix),
                      AllSelector, HasServiceAccount)
    ensures spec.namespaceSelector != "" && spec.serviceAccountSelector != "" ==>
      var nsStep := ReplaceAll(h.prefixAndAppendSelector(spec.selector, spec.namespaceSelector, h.namespaceLabelPrefix),
                               AllSelector, HasNamespace);
      && NoAll(nsStep)
      && ConvertSelector(h, spec)
         == ReplaceAll(h.prefixAndAppendSelector(nsStep, spec.serviceAccountSelector, h.serviceAccountLabelPrefix),
                       AllSelector, HasServiceAccount)
  {
    var s1 := RewriteStep(h.prefixAndAppendSelector, spec.selector, spec.namespaceSelector,
                          h.namespaceLabelPrefix, HasNamespace);
    assert spec.namespaceSelector != "" ==> NoAll(s1);
  }

  // ---------------------------------------------------------------------
  // Value conversion
  // ---------------------------------------------------------------------

  /** ConvertGlobalNetworkPolicyV3ToV1Value. */
  function ConvertValue<R, B>(h: Helpers<R, B>, v: Value<R>): (r: (Option<Policy<B>>, Option<Error>))
    ensures v.OtherValue? ==> r == (None, Some(Error(NotPolicyMessage)))
    ensures v.PolicyValue? ==> r.0.Some? && r.1.None?
    ensures v.PolicyValue? ==> r.0.value.namespace == ""
  {
    match v
    case OtherValue(_) => (None, Some(Error(NotPolicyMessage)))
    case PolicyValue(p) =>
      var spec := p.spec;
      (Some(Policy(
         "",
         spec.order,
         h.rulesToBackend(spec.ingress, ""),
         h.rulesToBackend(spec.egress, ""),
         ConvertSelector(h, spec),
         h.policyTypesToBackend(spec.types),
         spec.doNotTrack,
         spec.preDNAT,
         spec.applyOnForward,
         spec.performanceHints)), None)
  }

  /**
   * Every field of the converted policy: the namespace is empty, the rules
   * and types go through their converters with an empty namespace, the
   * selector is the rewritten one and the remaining fields are copied.
   */
  lemma ConvertValueFields<R, B>(h: Helpers<R, B>, p: GlobalNetworkPolicy<R>)
    ensures ConvertValue(h, PolicyValue(p)).0.Some?
    ensures var out := ConvertValue(h, PolicyValue(p)).0.value;
      && out.namespace == ""
      && out.order == p.spec.order
      && out.inboundRules == h.rulesToBackend(p.spec.ingress, "")
      && out.outboundRules == h.rulesToBackend(p.spec.egress, "")
      && out.selector == ConvertSelector(h, p.spec)
      && out.types == h.policyTypesToBackend(p.spec.types)
      && out.doNotTrack == p.spec.doNotTrack
      && out.preDNAT == p.spec.preDNAT
      && out.applyOnForward == p.spec.applyOnForward
      && out.performanceHints == p.spec.performanceHints
  {
  }
}
