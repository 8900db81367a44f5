/**
 * manager/LocalFeatureManager.java: the flow of a feature is read from the
 * configured flag map; a missing or blank value means "default", any other
 * value is returned trimmed. The context is not consulted.
 */
module Local {
  import opened Common
  import opened JavaStrings
  import opened Properties

  /** LocalFeatureManager.getFlow. */
  function GetFlow<A>(properties: FeaturePilotProperties, feature: string, ctx: map<string, A>): (flow: string)
    ensures flow == DEFAULT || (feature in properties.flags && flow == Trim(properties.flags[feature]))
  {
    var flags := properties.flags;
    if feature !in flags || IsBlank(flags[feature]) then DEFAULT else Trim(flags[feature])
  }

  /** A feature with no configured value resolves to "default". */
  lemma AbsentIsDefault<A>(properties: FeaturePilotProperties, feature: string, ctx: map<string, A>)
    requires feature !in properties.flags
    ensures GetFlow(properties, feature, ctx) == DEFAULT
  {
  }

  /** An empty or all-whitespace value resolves to "default". */
  lemma BlankIsDefault<A>(properties: FeaturePilotProperties, feature: string, ctx: map<string, A>)
    requires feature in properties.flags && IsBlank(properties.flags[feature])
    ensures GetFlow(properties, feature, ctx) == DEFAULT
  {
  }

  /** Any other value resolves to that value with the characters at or
      below U+0020 cut from both ends. */
  lemma NonBlankIsTrimmed<A>(properties: FeaturePilotProperties, feature: string, ctx: map<string, A>)
    requires feature in properties.flags && !IsBlank(properties.flags[feature])
    ensures GetFlow(properties, feature, ctx) == Trim(properties.flags[feature])
  {
  }

  /** A stored value that is non-blank and already trimmed comes back unchanged. */
  lemma TrimmedValueUnchanged<A>(properties: FeaturePilotProperties, feature: string, ctx: map<string, A>)
    requires feature in properties.flags
    requires var v := properties.flags[feature];
      !IsBlank(v) && !IsTrimmable(v[0]) && !IsTrimmable(v[|v| - 1])
    ensures GetFlow(properties, feature, ctx) == properties.flags[feature]
  {
  }

  /** The result depends on the flag map and the feature key only. */
  lemma IgnoresContext<A, B>(properties: FeaturePilotProperties, feature: string, c1: map<string, A>, c2: map<string, B>)
    ensures GetFlow(properties, feature, c1) == GetFlow(properties, feature, c2)
  {
  }

  /** The resolved flow is not always non-empty: a value that is not blank
      but consists of control characters below U+0009 trims to "". */
  lemma NonBlankValueCanResolveToEmpty<A>(ctx: map<string, A>)
    ensures GetFlow(FeaturePilotProperties(DefaultProperties.source, map["f" := "\U{1}"]), "f", ctx) == ""
  {
    NonBlankCanTrimToEmpty();
  }
}
